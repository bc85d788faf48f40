/**
 * The control table of a page: controls, the decimal IDs the page hands out,
 * and what inserting a control does to the table.
 */
module ControlTable {
  import opened Outcomes

  /**
   * One node of a page's control tree. The Go `Control` type is not in the
   * two modelled Go files; it is taken to carry an ID, a type, the ID of its parent ("" for
   * a root) and the ordered list of its children's IDs.
   */
  datatype Control = Control(id: string, controlType: string, parentID: string, childIds: seq<string>)
  {
    /** The control with `childID` appended to its child list. */
    function AddChildID(childID: string): Control
    {
      this.(childIds := childIds + [childID])
    }
  }

  /** A control with no children yet (Go's `NewControl(type, parentID, id)`). */
  function NewControl(controlType: string, parentID: string, id: string): Control
  {
    Control(id, controlType, parentID, [])
  }

  // ---------------------------------------------------------------------------
  // Decimal IDs (`strconv.Itoa` on the page's non-negative counter)
  // ---------------------------------------------------------------------------

  predicate IsDigit(ch: char)
  {
    '0' <= ch <= '9'
  }

  predicate AllDigits(s: string)
  {
    forall i :: 0 <= i < |s| ==> IsDigit(s[i])
  }

  function DigitChar(d: nat): char
    requires d < 10
  {
    ('0' as int + d) as char
  }

  /**
   * The decimal rendering of `n`: non-empty, digits only, and with no leading
   * zero unless `n` is zero.
   */
  function DecimalString(n: nat): (s: string)
    ensures |s| > 0 && AllDigits(s)
    ensures s[0] == '0' <==> n == 0
    decreases n
  {
    if n < 10 then [DigitChar(n)] else DecimalString(n / 10) + [DigitChar(n % 10)]
  }

  /** The number a string of digits denotes (the reading direction, `strconv.Atoi`). */
  function DecimalValue(s: string): nat
    requires AllDigits(s)
    decreases |s|
  {
    if s == [] then 0 else DecimalValue(s[..|s| - 1]) * 10 + (s[|s| - 1] as int - '0' as int)
  }

  /** Reading back a rendered counter gives the counter. */
  lemma {:induction false} DecimalRoundTrip(n: nat)
    ensures DecimalValue(DecimalString(n)) == n
    decreases n
  {
    if n >= 10 {
      var t := DecimalString(n / 10);
      var s := t + [DigitChar(n % 10)];
      assert s[..|s| - 1] == t;
      DecimalRoundTrip(n / 10);
    }
  }

  /** Distinct counter values render as distinct IDs. */
  lemma DecimalStringInjective(a: nat, b: nat)
    requires a != b
    ensures DecimalString(a) != DecimalString(b)
  {
    DecimalRoundTrip(a);
    DecimalRoundTrip(b);
  }

  // ---------------------------------------------------------------------------
  // Inserting a control (page.go AddControl, as a function of the table)
  // ---------------------------------------------------------------------------

  /** The message of the error AddControl returns for a missing parent. */
  function ParentNotFound(parentID: string): string
  {
    "parent control with id '" + parentID + "' not found"
  }

  /**
   * The control table after inserting `ctl`: a control that names a parent
   * absent from the table is refused; otherwise the parent (if any) gains the
   * new ID at the end of its child list, and then the control is stored under
   * its own ID.
   */
  function InsertControl(controls: map<string, Control>, ctl: Control): (r: Result<map<string, Control>>)
    ensures r.Err? <==> ctl.parentID != "" && ctl.parentID !in controls
    ensures r.Err? ==> r.error == ParentNotFound(ctl.parentID)
    ensures r.Ok? ==> r.value.Keys == controls.Keys + {ctl.id} && r.value[ctl.id] == ctl
  {
    if ctl.parentID != "" && ctl.parentID !in controls then
      Err(ParentNotFound(ctl.parentID))
    else
      var withParent :=
        if ctl.parentID != "" then controls[ctl.parentID := controls[ctl.parentID].AddChildID(ctl.id)]
        else controls;
      Ok(withParent[ctl.id := ctl])
  }

  /** Every stored control is stored under its own ID. */
  ghost predicate KeysAreIds(controls: map<string, Control>)
  {
    forall k | k in controls :: controls[k].id == k
  }

  /** Every control that names a parent names a stored control. */
  ghost predicate ParentsPresent(controls: map<string, Control>)
  {
    forall k | k in controls && controls[k].parentID != "" :: controls[k].parentID in controls
  }

  /** Every ID in a child list is a stored control. */
  ghost predicate ChildrenPresent(controls: map<string, Control>)
  {
    forall k, i | k in controls && 0 <= i < |controls[k].childIds| :: controls[k].childIds[i] in controls
  }

  ghost predicate WellFormed(controls: map<string, Control>)
  {
    KeysAreIds(controls) && ParentsPresent(controls) && ChildrenPresent(controls)
  }

  /** A parent ID that is set but not stored makes the insertion fail with the parent's name. */
  lemma InsertUnknownParentFails(controls: map<string, Control>, ctl: Control)
    requires ctl.parentID != "" && ctl.parentID !in controls
    ensures InsertControl(controls, ctl) == Err(ParentNotFound(ctl.parentID))
  {
  }

  /** A control without a parent is always accepted and stored under its ID. */
  lemma InsertRootSucceeds(controls: map<string, Control>, ctl: Control)
    requires ctl.parentID == ""
    ensures InsertControl(controls, ctl).Ok?
    ensures InsertControl(controls, ctl).value == controls[ctl.id := ctl]
  {
  }

  /**
   * An insertion under a stored parent succeeds, stores the control under its
   * ID, appends the ID to the parent's child list (unless the control replaces
   * its own parent), and leaves every other entry as it was.
   */
  lemma InsertUnderParent(controls: map<string, Control>, ctl: Control)
    requires ctl.parentID != "" && ctl.parentID in controls
    ensures InsertControl(controls, ctl).Ok?
    ensures var t := InsertControl(controls, ctl).value;
      && t.Keys == controls.Keys + {ctl.id}
      && t[ctl.id] == ctl
      && (ctl.parentID != ctl.id ==>
            t[ctl.parentID] == controls[ctl.parentID].(childIds := controls[ctl.parentID].childIds + [ctl.id]))
      && forall k | k in controls && k != ctl.id && k != ctl.parentID :: t[k] == controls[k]
  {
  }

  /** Insertion keeps every control stored under its own ID. */
  lemma InsertKeepsKeysAreIds(controls: map<string, Control>, ctl: Control)
    requires KeysAreIds(controls)
    ensures InsertControl(controls, ctl).Ok? ==> KeysAreIds(InsertControl(controls, ctl).value)
  {
  }

  /** Insertion keeps every named parent stored. */
  lemma InsertKeepsParentsPresent(controls: map<string, Control>, ctl: Control)
    requires ParentsPresent(controls)
    ensures InsertControl(controls, ctl).Ok? ==> ParentsPresent(InsertControl(controls, ctl).value)
  {
  }

  /**
   * Insertion keeps every child list pointing at stored controls, provided the
   * new control lists only stored children (a fresh control lists none).
   */
  lemma InsertKeepsChildrenPresent(controls: map<string, Control>, ctl: Control)
    requires ChildrenPresent(controls)
    requires forall i :: 0 <= i < |ctl.childIds| ==> ctl.childIds[i] in controls
    ensures InsertControl(controls, ctl).Ok? ==> ChildrenPresent(InsertControl(controls, ctl).value)
  {
  }

  /** The table of a new page: the root "Page" control under ID "0". */
  lemma InitialTableWellFormed()
    ensures InsertControl(map[], NewControl("Page", "", DecimalString(0)))
         == Ok(map["0" := Control("0", "Page", "", [])])
    ensures WellFormed(map["0" := Control("0", "Page", "", [])])
  {
  }
}
