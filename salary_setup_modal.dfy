/**
 * The state and handlers of the salary-setup modal: the form state and its
 * initial values, the defaulting applied when salary data is loaded, the
 * client-side guards, and the `loading` flag around each API call.
 */
module SalarySetup {
  import opened Wrappers

  // ---------------------------------------------------------------------------
  // JavaScript values held in the form
  // ---------------------------------------------------------------------------

  /** A form value: text typed into an input (or a `numeric` column read as
      text), a number from loaded data, or null/undefined. */
  datatype JsValue = Str(text: string) | Number(n: real) | Null

  /** JavaScript truthiness: the empty string, 0 and null are falsy. */
  predicate Truthy(v: JsValue) {
    match v
    case Str(t) => t != ""
    case Number(n) => n != 0.0
    case Null => false
  }

  /** `a || b`. */
  function Or(a: JsValue, b: JsValue): JsValue {
    if Truthy(a) then a else b
  }

  // ---------------------------------------------------------------------------
  // The salary structure being edited
  // ---------------------------------------------------------------------------

  datatype Structure = Structure(
    monthlyWage: JsValue,
    workingDaysPerWeek: JsValue,
    breakHours: JsValue,
    pfEmployeeRate: JsValue,
    pfEmployerRate: JsValue,
    professionalTaxOverride: JsValue)

  datatype StructureField =
    MonthlyWage | WorkingDaysPerWeek | BreakHours | PfEmployeeRate | PfEmployerRate | ProfessionalTaxOverride

  function Get(s: Structure, f: StructureField): JsValue {
    match f
    case MonthlyWage => s.monthlyWage
    case WorkingDaysPerWeek => s.workingDaysPerWeek
    case BreakHours => s.breakHours
    case PfEmployeeRate => s.pfEmployeeRate
    case PfEmployerRate => s.pfEmployerRate
    case ProfessionalTaxOverride => s.professionalTaxOverride
  }

  /** The structure the form starts with. */
  const InitialStructure: Structure :=
    Structure(Str(""), Number(5.0), Number(1.0), Number(12.0), Number(12.0), Null)

  /** The structure the form holds once salary data with a structure is loaded. */
  function LoadedStructure(s: Structure): (r: Structure)
    ensures forall f :: Get(r, f) == if Truthy(Get(s, f)) then Get(s, f) else Get(InitialStructure, f)
  {
    Structure(
      Or(s.monthlyWage, Str("")),
      Or(s.workingDaysPerWeek, Number(5.0)),
      Or(s.breakHours, Number(1.0)),
      Or(s.pfEmployeeRate, Number(12.0)),
      Or(s.pfEmployerRate, Number(12.0)),
      Or(s.professionalTaxOverride, Null))
  }

  /** Loading twice is loading once, and the initial structure loads as itself. */
  lemma LoadedStructureIdempotent(s: Structure)
    ensures LoadedStructure(LoadedStructure(s)) == LoadedStructure(s)
    ensures LoadedStructure(InitialStructure) == InitialStructure
  {
  }

  /** Zeros loaded from the server are replaced: working days become 5, break
      hours 1, both PF rates 12, and the tax override null; a `numeric` zero
      that arrives as the text "0.00" is truthy and kept. */
  lemma ZeroFieldsTakeDefaults()
    ensures var r := LoadedStructure(Structure(Number(0.0), Number(0.0), Number(0.0), Number(0.0), Number(0.0), Number(0.0)));
      r == Structure(Str(""), Number(5.0), Number(1.0), Number(12.0), Number(12.0), Null)
    ensures LoadedStructure(InitialStructure.(breakHours := Str("0.00"))).breakHours == Str("0.00")
  {
  }

  /** `if (!structure.monthly_wage)`: saving needs a truthy monthly wage. */
  predicate SaveAllowed(s: Structure) {
    Truthy(s.monthlyWage)
  }

  /** After loading, saving is allowed exactly when the loaded monthly wage was
      truthy; the initial form cannot be saved. */
  lemma SaveGuardAfterLoad(s: Structure)
    ensures SaveAllowed(LoadedStructure(s)) <==> Truthy(s.monthlyWage)
    ensures !SaveAllowed(InitialStructure)
  {
  }

  /** The body of the PUT request. Each value stands for the number `parseFloat`
      (`parseInt` for working days) makes of it; an absent tax override is sent
      as null. */
  datatype StructurePayload = StructurePayload(
    monthlyWage: JsValue,
    workingDaysPerWeek: JsValue,
    breakHours: JsValue,
    pfEmployeeRate: JsValue,
    pfEmployerRate: JsValue,
    professionalTaxOverride: Option<JsValue>)

  function StructurePayloadOf(s: Structure): StructurePayload {
    StructurePayload(
      s.monthlyWage, s.workingDaysPerWeek, s.breakHours, s.pfEmployeeRate, s.pfEmployerRate,
      if Truthy(s.professionalTaxOverride) then Some(s.professionalTaxOverride) else None)
  }

  /** Saving a loaded structure sends a null tax override exactly when the
      loaded one was falsy, and always sends truthy working days, break hours
      and PF rates. */
  lemma SavedPayloadAfterLoad(s: Structure)
    ensures var p := StructurePayloadOf(LoadedStructure(s));
      (p.professionalTaxOverride == None <==> !Truthy(s.professionalTaxOverride)) &&
      Truthy(p.workingDaysPerWeek) && Truthy(p.breakHours) &&
      Truthy(p.pfEmployeeRate) && Truthy(p.pfEmployerRate)
  {
  }

  /** A tax override of 0 cannot be sent: it is loaded as null and saved as null. */
  lemma ZeroTaxOverrideSentAsNull(s: Structure)
    requires s.professionalTaxOverride == Number(0.0) || s.professionalTaxOverride == Str("")
    ensures StructurePayloadOf(LoadedStructure(s)).professionalTaxOverride == None
  {
  }

  // ---------------------------------------------------------------------------
  // Salary components
  // ---------------------------------------------------------------------------

  /** The new-component form; its inputs hold text. */
  datatype NewComponent = NewComponent(name: string, computationType: string, value: string, isDeduction: bool)

  const InitialNewComponent: NewComponent := NewComponent("", "fixed", "", false)

  /** `if (!newComponent.name || !newComponent.value)`: both must be non-empty. */
  predicate AddAllowed(c: NewComponent) {
    c.name != "" && c.value != ""
  }

  /** A component as the server lists it. */
  datatype SalaryComponent = SalaryComponent(
    id: nat, name: string, computationType: string, value: JsValue, isDeduction: bool)

  /** The body of the POST request; `value` stands for `parseFloat(value)`. */
  datatype ComponentPayload = ComponentPayload(name: string, computationType: string, value: string, isDeduction: bool)

  function ComponentPayloadOf(c: NewComponent): ComponentPayload {
    ComponentPayload(c.name, c.computationType, c.value, c.isDeduction)
  }

  /** The form after a successful add cannot be submitted again as it stands. */
  lemma ResetFormIsRejected()
    ensures !AddAllowed(InitialNewComponent)
  {
  }

  // ---------------------------------------------------------------------------
  // Requests and the loading flag
  // ---------------------------------------------------------------------------

  datatype Request =
    | UpsertStructure(employeeId: nat, structure: StructurePayload)
    | AddComponent(employeeId: nat, component: ComponentPayload)
    | DeleteComponent(employeeId: nat, componentId: nat)

  /** Whether the server accepted the request. */
  datatype Outcome = Succeeded | Failed

  /** What a handler does outside its own state, in order: set the loading
      flag, send a request, or tell the parent that salary data changed. */
  datatype Effect = SetLoading(on: bool) | Send(request: Request) | Refresh

  /** The effects of a handler that passed its guard: loading on, the request,
      the refresh when it succeeded, loading off in `finally`. */
  function CallEffects(req: Request, outcome: Outcome): seq<Effect> {
    [SetLoading(true), Send(req)] + (if outcome == Succeeded then [Refresh] else []) + [SetLoading(false)]
  }

  /** The loading flag after replaying `es` from `initial`. */
  function LoadingAfter(initial: bool, es: seq<Effect>): bool {
    if es == [] then initial
    else
      var last := es[|es| - 1];
      if last.SetLoading? then last.on else LoadingAfter(initial, es[..|es| - 1])
  }

  /** The requests among `es`, in order. */
  function RequestsIn(es: seq<Effect>): seq<Request> {
    if es == [] then []
    else RequestsIn(es[..|es| - 1]) + (if es[|es| - 1].Send? then [es[|es| - 1].request] else [])
  }

  /** Whatever the outcome, exactly one request is sent, loading is on while it
      is in flight and off afterwards, and the parent is told to refresh
      exactly when it succeeded. */
  lemma LoadingBracketsEveryCall(req: Request, outcome: Outcome, initial: bool)
    ensures var es := CallEffects(req, outcome);
      RequestsIn(es) == [req] &&
      es[1] == Send(req) && LoadingAfter(initial, es[..1]) &&
      !LoadingAfter(initial, es) &&
      (Refresh in es <==> outcome == Succeeded)
  {
    var es := CallEffects(req, outcome);
    assert es[..1] == [SetLoading(true)];
    assert es[..2] == [SetLoading(true), Send(req)];
    assert es[..2][..1] == es[..1];
    assert es[..1][..0] == [];
    assert RequestsIn(es[..1]) == [] by {
      assert RequestsIn(es[..1][..0]) == [];
    }
    assert RequestsIn(es[..2]) == [] + [req];
    if outcome == Succeeded {
      assert es[..3] == es[..2] + [Refresh];
      assert es[..3][..2] == es[..2];
      assert RequestsIn(es[..3]) == [req];
      assert es[..|es| - 1] == es[..3];
    } else {
      assert es[..|es| - 1] == es[..2];
    }
  }

  // ---------------------------------------------------------------------------
  // The component state and its handlers
  // ---------------------------------------------------------------------------

  /** The salary data passed in by the parent. */
  datatype SalaryData = SalaryData(structure: Option<Structure>, components: Option<seq<SalaryComponent>>)

  class SalarySetupModal {
    const employeeId: nat
    var loading: bool
    var structure: Structure
    var components: seq<SalaryComponent>
    var newComponent: NewComponent
    var editingComponentId: Option<nat>

    /** The `useState` initial values. */
    constructor (employeeId: nat)
      ensures this.employeeId == employeeId
      ensures !loading && structure == InitialStructure && components == []
      ensures newComponent == InitialNewComponent && editingComponentId == None
    {
      this.employeeId := employeeId;
      loading := false;
      structure := InitialStructure;
      components := [];
      newComponent := InitialNewComponent;
      editingComponentId := None;
    }

    /** The effect run when `salaryData` changes: a present structure replaces
        the form's with falsy fields defaulted; a present component list
        replaces the components. */
    method LoadSalaryData(salaryData: Option<SalaryData>)
      modifies this`structure, this`components
      ensures structure ==
        if salaryData.Some? && salaryData.value.structure.Some?
        then LoadedStructure(salaryData.value.structure.value) else old(structure)
      ensures components ==
        if salaryData.Some? && salaryData.value.components.Some?
        then salaryData.value.components.value else old(components)
    {
      if salaryData.Some? && salaryData.value.structure.Some? {
        structure := LoadedStructure(salaryData.value.structure.value);
      }
      if salaryData.Some? && salaryData.value.components.Some? {
        components := salaryData.value.components.value;
      }
    }

    /** Save the structure. A falsy monthly wage is rejected with no request and
        the loading flag untouched; otherwise the PUT is bracketed by the
        loading flag whatever its outcome. */
    method HandleSaveStructure(outcome: Outcome) returns (effects: seq<Effect>)
      modifies this`loading
      ensures !SaveAllowed(structure) ==> effects == [] && loading == old(loading)
      ensures SaveAllowed(structure) ==>
        !loading && effects == CallEffects(UpsertStructure(employeeId, StructurePayloadOf(structure)), outcome)
    {
      effects := [];
      if !Truthy(structure.monthlyWage) {
        return;
      }
      loading := true;
      effects := effects + [SetLoading(true)];
      effects := effects + [Send(UpsertStructure(employeeId, StructurePayloadOf(structure)))];
      if outcome == Succeeded {
        effects := effects + [Refresh];
      }
      loading := false;
      effects := effects + [SetLoading(false)];
    }

    /** Add the component being entered. An empty name or value is rejected
        with no request; a successful add resets the form to its initial
        values, a failed one keeps it as entered. */
    method HandleAddComponent(outcome: Outcome) returns (effects: seq<Effect>)
      modifies this`loading, this`newComponent
      ensures !AddAllowed(old(newComponent)) ==>
        effects == [] && loading == old(loading) && newComponent == old(newComponent)
      ensures AddAllowed(old(newComponent)) ==>
        !loading &&
        effects == CallEffects(AddComponent(employeeId, ComponentPayloadOf(old(newComponent))), outcome) &&
        newComponent == if outcome == Succeeded then InitialNewComponent else old(newComponent)
    {
      effects := [];
      if newComponent.name == "" || newComponent.value == "" {
        return;
      }
      loading := true;
      effects := effects + [SetLoading(true)];
      effects := effects + [Send(AddComponent(employeeId, ComponentPayloadOf(newComponent)))];
      if outcome == Succeeded {
        newComponent := InitialNewComponent;
        effects := effects + [Refresh];
      }
      loading := false;
      effects := effects + [SetLoading(false)];
    }

    /** Delete a component. Without the user's confirmation nothing happens;
        with it the DELETE is bracketed by the loading flag. */
    method HandleDeleteComponent(componentId: nat, confirmed: bool, outcome: Outcome) returns (effects: seq<Effect>)
      modifies this`loading
      ensures !confirmed ==> effects == [] && loading == old(loading)
      ensures confirmed ==> !loading && effects == CallEffects(DeleteComponent(employeeId, componentId), outcome)
    {
      effects := [];
      if !confirmed {
        return;
      }
      loading := true;
      effects := effects + [SetLoading(true)];
      effects := effects + [Send(DeleteComponent(employeeId, componentId))];
      if outcome == Succeeded {
        effects := effects + [Refresh];
      }
      loading := false;
      effects := effects + [SetLoading(false)];
    }
  }
}
