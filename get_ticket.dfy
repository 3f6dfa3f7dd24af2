/**
 * src/pages/GetTicketPage.jsx: the five-step ticket wizard. The visitor picks an office,
 * a department and a service; generating then issues a ticket whose token comes from
 * `generateTokenNumber`, and the wizard shows it at step 5 until it is reset.
 */
module GetTicket {
  import opened Wrappers
  import opened JsBuiltins
  import opened Fixtures
  import Helpers

  // ---------------------------------------------------------------- lookups and derivations

  /** `offices.find(o => o.id === id)`. */
  function FindOffice(offices: seq<Office>, id: string): (r: Option<Office>)
    ensures r.None? <==> forall k :: 0 <= k < |offices| ==> offices[k].id != id
    ensures r.Some? ==> r.value.id == id && r.value in offices
  {
    var k := FindIndex(offices, (o: Office) => o.id == id);
    if k < 0 then None else Some(offices[k])
  }

  /** `departments.find(d => d.id === id)`. */
  function FindDepartment(departments: seq<Department>, id: string): (r: Option<Department>)
    ensures r.None? <==> forall k :: 0 <= k < |departments| ==> departments[k].id != id
    ensures r.Some? ==> r.value.id == id && r.value in departments
  {
    var k := FindIndex(departments, (d: Department) => d.id == id);
    if k < 0 then None else Some(departments[k])
  }

  /** `services.find(s => s.id === id)`. */
  function FindService(services: seq<Service>, id: string): (r: Option<Service>)
    ensures r.None? <==> forall k :: 0 <= k < |services| ==> services[k].id != id
    ensures r.Some? ==> r.value.id == id && r.value in services
  {
    var k := FindIndex(services, (s: Service) => s.id == id);
    if k < 0 then None else Some(services[k])
  }

  /** `departments`: empty without a selected office or when its id is unknown, else that office's departments. */
  function OfficeDepartments(offices: seq<Office>, selectedOffice: string): (r: seq<Department>)
    ensures selectedOffice == "" ==> r == []
    ensures FindOffice(offices, selectedOffice).None? ==> r == []
    ensures selectedOffice != "" && FindOffice(offices, selectedOffice).Some? ==> r == FindOffice(offices, selectedOffice).value.departments
    ensures r != [] ==> selectedOffice != "" && FindOffice(offices, selectedOffice).Some?
  {
    if selectedOffice == "" then []
    else match FindOffice(offices, selectedOffice)
      case None => []
      case Some(o) => o.departments
  }

  /** `services`: the same derivation one level down, from the derived departments. */
  function DepartmentServices(departments: seq<Department>, selectedDepartment: string): (r: seq<Service>)
    ensures selectedDepartment == "" ==> r == []
    ensures FindDepartment(departments, selectedDepartment).None? ==> r == []
    ensures selectedDepartment != "" && FindDepartment(departments, selectedDepartment).Some? ==>
      r == FindDepartment(departments, selectedDepartment).value.services
    ensures r != [] ==> selectedDepartment != "" && FindDepartment(departments, selectedDepartment).Some?
  {
    if selectedDepartment == "" then []
    else match FindDepartment(departments, selectedDepartment)
      case None => []
      case Some(d) => d.services
  }

  // ---------------------------------------------------------------- issuing

  /** The ticket `generateTicket` builds; `issueTime` is the clock reading in milliseconds. */
  datatype IssuedTicket = IssuedTicket(token: string, service: string, department: string, office: string,
                                       estimatedTime: int, issueTime: int, queuePosition: int, estimatedWait: int)

  /** The two draws `Math.floor(Math.random() * 5) + 1` of the queue position and the wait multiplier. */
  predicate IsFiveDraw(k: int)
  {
    1 <= k <= 5
  }

  /**
   * The ticket `generateTicket` builds from the selections at time `now` with its draws.
   * None where reading `service.name` of an undefined service throws: the handler stops there.
   */
  function IssueTicket(offices: seq<Office>, selectedOffice: string, selectedDepartment: string, selectedService: string,
                       tokenDraw: int, positionDraw: int, waitDraw: int, now: int): (r: Option<IssuedTicket>)
    requires Helpers.IsTokenDraw(tokenDraw) && IsFiveDraw(positionDraw) && IsFiveDraw(waitDraw)
    ensures r.Some? ==> |r.value.token| >= 3 && r.value.token[0] == Helpers.TokenPrefix(selectedDepartment)
    ensures r.Some? ==> r.value.issueTime == now && r.value.queuePosition == positionDraw
    ensures r.Some? ==> r.value.estimatedWait == waitDraw * r.value.estimatedTime
  {
    var departments := OfficeDepartments(offices, selectedOffice);
    var services := DepartmentServices(departments, selectedDepartment);
    match FindService(services, selectedService)
    case None => None
    case Some(service) =>
      var department := FindDepartment(departments, selectedDepartment).value;
      var office := FindOffice(offices, selectedOffice).value;
      Some(IssuedTicket(Helpers.GenerateTokenNumber(selectedDepartment, tokenDraw), service.name, department.name, office.name,
                        service.estimatedTime, now, positionDraw, waitDraw * service.estimatedTime))
  }

  /**
   * Generating succeeds exactly when the selected service is among the derived services: a
   * found service implies its department and office were found too, so no other lookup throws.
   */
  lemma IssueSucceedsIffServiceFound(offices: seq<Office>, selectedOffice: string, selectedDepartment: string, selectedService: string,
                                     tokenDraw: int, positionDraw: int, waitDraw: int, now: int)
    requires Helpers.IsTokenDraw(tokenDraw) && IsFiveDraw(positionDraw) && IsFiveDraw(waitDraw)
    ensures
      var departments := OfficeDepartments(offices, selectedOffice);
      IssueTicket(offices, selectedOffice, selectedDepartment, selectedService, tokenDraw, positionDraw, waitDraw, now).Some? <==>
        FindService(DepartmentServices(departments, selectedDepartment), selectedService).Some?
  {
  }

  /**
   * An issued ticket carries the token `generateTokenNumber` gives the selected department id,
   * the names of the chosen service, department and office, the issue time, a queue position
   * in 1..5 and a wait of 1..5 times the service's estimated time.
   */
  lemma IssuedTicketContents(offices: seq<Office>, selectedOffice: string, selectedDepartment: string, selectedService: string,
                             tokenDraw: int, positionDraw: int, waitDraw: int, now: int)
    requires Helpers.IsTokenDraw(tokenDraw) && IsFiveDraw(positionDraw) && IsFiveDraw(waitDraw)
    requires IssueTicket(offices, selectedOffice, selectedDepartment, selectedService, tokenDraw, positionDraw, waitDraw, now).Some?
    ensures
      var r := IssueTicket(offices, selectedOffice, selectedDepartment, selectedService, tokenDraw, positionDraw, waitDraw, now).value;
      var departments := OfficeDepartments(offices, selectedOffice);
      var service := FindService(DepartmentServices(departments, selectedDepartment), selectedService).value;
      && r.token == Helpers.GenerateTokenNumber(selectedDepartment, tokenDraw)
      && |r.token| == 3 && r.token[0] == Helpers.TokenPrefix(selectedDepartment)
      && r.service == service.name
      && r.department == FindDepartment(departments, selectedDepartment).value.name
      && r.office == FindOffice(offices, selectedOffice).value.name
      && r.estimatedTime == service.estimatedTime
      && r.issueTime == now
      && 1 <= r.queuePosition <= 5
      && exists k :: 1 <= k <= 5 && r.estimatedWait == k * service.estimatedTime
  {
    Helpers.TokenFormat(selectedDepartment, tokenDraw);
  }

  /** Walking the wizard through listed office, department and service ids always issues a ticket, with that service's name and time. */
  lemma ListedChoicesIssue(offices: seq<Office>, i: int, j: int, k: int, tokenDraw: int, positionDraw: int, waitDraw: int, now: int)
    requires 0 <= i < |offices| && forall i' :: 0 <= i' < i ==> offices[i'].id != offices[i].id
    requires 0 <= j < |offices[i].departments|
    requires forall j' :: 0 <= j' < j ==> offices[i].departments[j'].id != offices[i].departments[j].id
    requires 0 <= k < |offices[i].departments[j].services|
    requires forall k' :: 0 <= k' < k ==> offices[i].departments[j].services[k'].id != offices[i].departments[j].services[k].id
    requires offices[i].id != "" && offices[i].departments[j].id != ""
    requires Helpers.IsTokenDraw(tokenDraw) && IsFiveDraw(positionDraw) && IsFiveDraw(waitDraw)
    ensures
      var o := offices[i];
      var d := o.departments[j];
      var s := d.services[k];
      var r := IssueTicket(offices, o.id, d.id, s.id, tokenDraw, positionDraw, waitDraw, now);
      && r.Some?
      && r.value.office == o.name && r.value.department == d.name && r.value.service == s.name
      && r.value.estimatedTime == s.estimatedTime
      && r.value.token[0] == Helpers.TokenPrefix(d.id)
  {
    var o := offices[i];
    var d := o.departments[j];
    var s := d.services[k];
    assert FindIndex(offices, (x: Office) => x.id == o.id) == i;
    assert FindIndex(o.departments, (x: Department) => x.id == d.id) == j;
    assert FindIndex(d.services, (x: Service) => x.id == s.id) == k;
    IssueSucceedsIffServiceFound(offices, o.id, d.id, s.id, tokenDraw, positionDraw, waitDraw, now);
    IssuedTicketContents(offices, o.id, d.id, s.id, tokenDraw, positionDraw, waitDraw, now);
  }

  /** The fields `generateTicket` writes. */
  datatype Generation = Generation(generatedTicket: Option<IssuedTicket>, qrCodeUrl: Option<string>, isGenerating: bool, step: int)

  /**
   * The continuation of `generateTicket` given the ticket it built (None: it threw) and the
   * QR URL: the ticket, the URL, not generating, step 5; after a throw nothing changes.
   */
  function GenerateStep(g: Generation, ticket: Option<IssuedTicket>, qrUrl: Option<string>): (r: Generation)
    ensures ticket.None? ==> r == g
    ensures ticket.Some? ==> r.generatedTicket == ticket && r.qrCodeUrl == qrUrl && !r.isGenerating && r.step == StepCount
  {
    if ticket.Some? then Generation(ticket, qrUrl, false, StepCount) else g
  }

  // ---------------------------------------------------------------- the component

  /** The wizard's last step, where the issued ticket is shown. */
  const StepCount := 5

  class TicketWizard {
    const offices: seq<Office>
    var selectedOffice: string
    var selectedDepartment: string
    var selectedService: string
    /** Never set by any handler: it stays null. */
    var hasInsurance: Option<bool>
    var generatedTicket: Option<IssuedTicket>
    /** `generateQRCode` resolves to null when the library fails. */
    var qrCodeUrl: Option<string>
    var step: int
    var isGenerating: bool

    /**
     * What every handler keeps, in any order of calls: steps 1..5; a step never shows a
     * choice made at a later step; step 1 has no ticket and step 5 always has one.
     */
    ghost predicate Valid()
      reads this
    {
      && 1 <= step <= StepCount
      && (step <= 3 ==> selectedService == "")
      && (step <= 2 ==> selectedDepartment == "")
      && (step == 1 ==> selectedOffice == "" && generatedTicket == None)
      && (step == StepCount ==> generatedTicket.Some?)
    }

    /** The initial state over the fixture's offices. */
    constructor (offices0: seq<Office>)
      ensures Valid()
      ensures offices == offices0 && step == 1 && !isGenerating
      ensures selectedOffice == "" && selectedDepartment == "" && selectedService == ""
      ensures hasInsurance == None && generatedTicket == None && qrCodeUrl == Some("")
    {
      offices := offices0;
      selectedOffice, selectedDepartment, selectedService := "", "", "";
      hasInsurance, generatedTicket, qrCodeUrl := None, None, Some("");
      step, isGenerating := 1, false;
    }

    /** `departments` as the page derives it now. */
    function Departments(): seq<Department>
      reads this`selectedOffice
    {
      OfficeDepartments(offices, selectedOffice)
    }

    /** `services` as the page derives it now. */
    function Services(): seq<Service>
      reads this`selectedOffice, this`selectedDepartment
    {
      DepartmentServices(Departments(), selectedDepartment)
    }

    /** The ticket the current choices issue with the given draws at time `now`. */
    function Issued(tokenDraw: int, positionDraw: int, waitDraw: int, now: int): Option<IssuedTicket>
      requires Helpers.IsTokenDraw(tokenDraw) && IsFiveDraw(positionDraw) && IsFiveDraw(waitDraw)
      reads this`selectedOffice, this`selectedDepartment, this`selectedService
    {
      IssueTicket(offices, selectedOffice, selectedDepartment, selectedService, tokenDraw, positionDraw, waitDraw, now)
    }

    /** `handleOfficeSelect(officeId)`. */
    method SelectOffice(officeId: string)
      requires Valid()
      modifies this`selectedOffice, this`selectedDepartment, this`selectedService, this`step
      ensures Valid()
      ensures selectedOffice == officeId && selectedDepartment == "" && selectedService == "" && step == 2
      ensures Services() == []
    {
      selectedOffice, selectedDepartment, selectedService := officeId, "", "";
      step := 2;
    }

    /** `handleDepartmentSelect(departmentId)`: the office stays. */
    method SelectDepartment(departmentId: string)
      requires Valid()
      modifies this`selectedDepartment, this`selectedService, this`step
      ensures Valid()
      ensures selectedDepartment == departmentId && selectedService == "" && step == 3
    {
      selectedDepartment, selectedService := departmentId, "";
      step := 3;
    }

    /** `handleServiceSelect(serviceId)`: office and department stay. */
    method SelectService(serviceId: string)
      requires Valid()
      modifies this`selectedService, this`step
      ensures Valid()
      ensures selectedService == serviceId && step == 4
    {
      selectedService := serviceId;
      step := 4;
    }

    /** `generateTicket` up to its first `await`. */
    method BeginGenerate()
      requires Valid()
      modifies this`isGenerating
      ensures Valid() && isGenerating
    {
      isGenerating := true;
    }

    /**
     * `generateTicket` after the delay, at time `now` with its draws, `qrUrl` being what
     * `generateQRCode` resolves to. When the service is not found the handler throws and
     * nothing changes: `isGenerating` stays true.
     */
    method FinishGenerate(tokenDraw: int, positionDraw: int, waitDraw: int, now: int, qrUrl: Option<string>) returns (ticket: Option<IssuedTicket>)
      requires Valid()
      requires Helpers.IsTokenDraw(tokenDraw) && IsFiveDraw(positionDraw) && IsFiveDraw(waitDraw)
      modifies this`generatedTicket, this`qrCodeUrl, this`isGenerating, this`step
      ensures Valid()
      ensures ticket == old(Issued(tokenDraw, positionDraw, waitDraw, now))
      ensures Outcome() == GenerateStep(old(Outcome()), ticket, qrUrl)
    {
      ticket := Issued(tokenDraw, positionDraw, waitDraw, now);
      var g := GenerateStep(Outcome(), ticket, qrUrl);
      generatedTicket, qrCodeUrl, isGenerating, step := g.generatedTicket, g.qrCodeUrl, g.isGenerating, g.step;
    }

    /** The fields `generateTicket` writes, as one value. */
    function Outcome(): Generation
      reads this`generatedTicket, this`qrCodeUrl, this`isGenerating, this`step
    {
      Generation(generatedTicket, qrCodeUrl, isGenerating, step)
    }

    /** `resetForm`: back to step 1 with no choices and no ticket; the QR URL, `hasInsurance` and `isGenerating` stay. */
    method ResetForm()
      requires Valid()
      modifies this`selectedOffice, this`selectedDepartment, this`selectedService, this`generatedTicket, this`step
      ensures Valid()
      ensures selectedOffice == "" && selectedDepartment == "" && selectedService == ""
      ensures generatedTicket == None && step == 1
    {
      selectedOffice, selectedDepartment, selectedService := "", "", "";
      generatedTicket := None;
      step := 1;
    }
  }
}
