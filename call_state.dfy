/** The values of the call form (what the notes are rendered from), the two security
    checklists, the clearing rules the form applies on each change, and the settings
    kept in the browser's key-value store. */
module CallState {
  import opened JsText

  /** One snapshot of the form. Text fields hold the element values as typed (they are
      trimmed only when read); `relation` and `securityResult` are select values, where ""
      is the first option. `pass` and `fail` are the two checklists, indexed as below. */
  datatype Form = Form(
    officerName: string, ccelRef: string,
    vrn: string, businessName: string, addressLine: string, postcode: string,
    relation: string, agencyName: string, agencyAddress: string, agentRef: string,
    callerName: string, phoneNumber: string, securityResult: string, brief: string,
    pass: seq<bool>, fail: seq<bool>)

  /** Each checklist has six boxes. */
  const ChecklistSize: nat := 6

  // Positions in the pass checklist, in declaration order.
  const PassBox5: nat := 0
  const PassEdr: nat := 1
  const PassArn: nat := 2
  const PassF64_8: nat := 3
  const PassAgentOther: nat := 4
  const PassEis: nat := 5

  // Positions in the fail checklist, in declaration order.
  const FailBox5: nat := 0
  const FailEdr: nat := 1
  const FailVrn: nat := 2
  const FailAgentNotAuth: nat := 3
  const FailNotAuth: nat := 4
  const FailAgentRefOther: nat := 5

  /** Box `i` is ticked; a box that does not exist reads as unticked. */
  predicate Checked(flags: seq<bool>, i: nat) {
    i < |flags| && flags[i]
  }

  predicate AnyChecked(flags: seq<bool>) {
    exists i :: 0 <= i < |flags| && flags[i]
  }

  /** Every box of a checklist unticked. */
  function Unticked(flags: seq<bool>): (r: seq<bool>)
    ensures |r| == |flags| && !AnyChecked(r)
  {
    seq(|flags|, _ => false)
  }

  /** The agency fields hold nothing unless the caller is an agent. */
  predicate NoStaleAgentData(f: Form) {
    f.relation != "Agent" ==> f.agencyName == "" && f.agencyAddress == "" && f.agentRef == ""
  }

  /** A ticked box is only ever in the checklist that matches the security result. */
  predicate ChecklistsMatchResult(f: Form) {
    (AnyChecked(f.pass) ==> Trim(f.securityResult) == "Pass")
    && (AnyChecked(f.fail) ==> Trim(f.securityResult) == "Fail")
  }

  /** What the clearing rules keep true of the form between events. */
  predicate Coherent(f: Form) {
    NoStaleAgentData(f) && ChecklistsMatchResult(f)
  }

  /** At most one checklist has a ticked box in a coherent form. */
  lemma ChecklistsExclusive(f: Form)
    requires ChecklistsMatchResult(f)
    ensures !(AnyChecked(f.pass) && AnyChecked(f.fail))
    ensures AnyChecked(f.pass) ==> Trim(f.securityResult) == "Pass"
    ensures AnyChecked(f.fail) ==> Trim(f.securityResult) == "Fail"
  {
  }

  /** The value effect of `updateAgentFields`: a non-agent relation empties the agency fields. */
  function AgentFieldsUpdated(f: Form): (g: Form)
    ensures NoStaleAgentData(g)
    ensures f.relation == "Agent" ==> g == f
    ensures g.(agencyName := f.agencyName, agencyAddress := f.agencyAddress, agentRef := f.agentRef) == f
  {
    if f.relation == "Agent" then f else f.(agencyName := "", agencyAddress := "", agentRef := "")
  }

  /** Applying the agent rule a second time changes nothing. */
  lemma AgentFieldsIdempotent(f: Form)
    ensures AgentFieldsUpdated(AgentFieldsUpdated(f)) == AgentFieldsUpdated(f)
  {
  }

  /** The value effect of `updateSecurityDetailsBlocks`: "Pass" unticks the fail list, "Fail"
      the pass list, any other (trimmed) result both. */
  function SecurityDetailsUpdated(f: Form): (g: Form)
    ensures ChecklistsMatchResult(g)
    ensures g.(pass := f.pass, fail := f.fail) == f
    ensures |g.pass| == |f.pass| && |g.fail| == |f.fail|
    ensures Trim(f.securityResult) == "Pass" ==> g.pass == f.pass
    ensures Trim(f.securityResult) == "Fail" ==> g.fail == f.fail
  {
    var val := Trim(f.securityResult);
    if val == "Pass" then f.(fail := Unticked(f.fail))
    else if val == "Fail" then f.(pass := Unticked(f.pass))
    else f.(pass := Unticked(f.pass), fail := Unticked(f.fail))
  }

  /** Applying the checklist rule a second time changes nothing. */
  lemma SecurityDetailsIdempotent(f: Form)
    ensures SecurityDetailsUpdated(SecurityDetailsUpdated(f)) == SecurityDetailsUpdated(f)
  {
  }

  /** The form elements, by id. `Relation` and `SecurityResult` are selects. */
  datatype FieldId =
    | OfficerName | CcelRef
    | Vrn | BusinessName | AddressLine | Postcode
    | Relation | AgencyName | AgencyAddress | AgentRef
    | CallerName | PhoneNumber | SecurityResult | Brief

  /** The elements a call reset empties, in the order it visits them. */
  const CallFieldIds: seq<FieldId> :=
    [Vrn, BusinessName, AddressLine, Postcode, Relation, AgencyName, AgencyAddress, AgentRef,
     CallerName, PhoneNumber, SecurityResult, Brief]

  predicate IsAgentField(id: FieldId) {
    id == AgencyName || id == AgencyAddress || id == AgentRef
  }

  /** The value of one element. */
  function Field(f: Form, id: FieldId): string {
    match id
    case OfficerName => f.officerName
    case CcelRef => f.ccelRef
    case Vrn => f.vrn
    case BusinessName => f.businessName
    case AddressLine => f.addressLine
    case Postcode => f.postcode
    case Relation => f.relation
    case AgencyName => f.agencyName
    case AgencyAddress => f.agencyAddress
    case AgentRef => f.agentRef
    case CallerName => f.callerName
    case PhoneNumber => f.phoneNumber
    case SecurityResult => f.securityResult
    case Brief => f.brief
  }

  /** The form with one element's value replaced. */
  function WithField(f: Form, id: FieldId, v: string): Form {
    match id
    case OfficerName => f.(officerName := v)
    case CcelRef => f.(ccelRef := v)
    case Vrn => f.(vrn := v)
    case BusinessName => f.(businessName := v)
    case AddressLine => f.(addressLine := v)
    case Postcode => f.(postcode := v)
    case Relation => f.(relation := v)
    case AgencyName => f.(agencyName := v)
    case AgencyAddress => f.(agencyAddress := v)
    case AgentRef => f.(agentRef := v)
    case CallerName => f.(callerName := v)
    case PhoneNumber => f.(phoneNumber := v)
    case SecurityResult => f.(securityResult := v)
    case Brief => f.(brief := v)
  }

  /** Writing an element changes that element's value and nothing else. */
  lemma WithFieldOnly(f: Form, id: FieldId, v: string)
    ensures Field(WithField(f, id, v), id) == v
    ensures forall other :: other != id ==> Field(WithField(f, id, v), other) == Field(f, other)
    ensures WithField(f, id, v).pass == f.pass && WithField(f, id, v).fail == f.fail
  {
  }

  /** Typing into a text element keeps the clearing rules, provided the agency elements are
      only typed into while the relation is "Agent" (they are hidden otherwise). */
  lemma TypingKeepsCoherent(f: Form, id: FieldId, v: string)
    requires Coherent(f)
    requires id != Relation && id != SecurityResult
    requires IsAgentField(id) ==> f.relation == "Agent"
    ensures Coherent(WithField(f, id, v))
  {
    var g := WithField(f, id, v);
    WithFieldOnly(f, id, v);
    assert g.relation == Field(g, Relation) == Field(f, Relation);
    assert g.securityResult == Field(g, SecurityResult) == Field(f, SecurityResult);
    if f.relation != "Agent" {
      assert g.agencyName == Field(g, AgencyName) == Field(f, AgencyName);
      assert g.agencyAddress == Field(g, AgencyAddress) == Field(f, AgencyAddress);
      assert g.agentRef == Field(g, AgentRef) == Field(f, AgentRef);
    }
  }

  /** The form after emptying the elements `ids`, one after the other. */
  function Blanked(f: Form, ids: seq<FieldId>): Form {
    if ids == [] then f else WithField(Blanked(f, ids[..|ids| - 1]), ids[|ids| - 1], "")
  }

  /** Emptying the elements `ids` in turn empties exactly those elements. */
  lemma {:induction false} BlankedOnly(f: Form, ids: seq<FieldId>)
    ensures forall id :: id in ids ==> Field(Blanked(f, ids), id) == ""
    ensures forall id :: id !in ids ==> Field(Blanked(f, ids), id) == Field(f, id)
    ensures Blanked(f, ids).pass == f.pass && Blanked(f, ids).fail == f.fail
  {
    if ids != [] {
      var init, last := ids[..|ids| - 1], ids[|ids| - 1];
      BlankedOnly(f, init);
      WithFieldOnly(Blanked(f, init), last, "");
      assert ids == init + [last];
    }
  }

  /** The two checklists. */
  datatype Checklist = PassList | FailList

  /** The boxes of one checklist. */
  function Flags(f: Form, list: Checklist): seq<bool> {
    if list == PassList then f.pass else f.fail
  }

  /** The form with one checklist's boxes replaced. */
  function WithFlags(f: Form, list: Checklist, flags: seq<bool>): (g: Form)
    ensures Flags(g, list) == flags
  {
    if list == PassList then f.(pass := flags) else f.(fail := flags)
  }

  /** The form after ticking or unticking box `i` of one checklist. */
  function Ticked(f: Form, list: Checklist, i: nat, ticked: bool): (g: Form)
    requires i < |Flags(f, list)|
    ensures |Flags(g, list)| == |Flags(f, list)| && Flags(g, list)[i] == ticked
    ensures forall k :: 0 <= k < |Flags(f, list)| && k != i ==> Flags(g, list)[k] == Flags(f, list)[k]
    ensures g.(pass := f.pass, fail := f.fail) == f
    ensures list == PassList ==> g.fail == f.fail
    ensures list == FailList ==> g.pass == f.pass
  {
    WithFlags(f, list, Flags(f, list)[i := ticked])
  }

  /** Every call field (VRN through brief) empty and both checklists unticked. */
  predicate CallFieldsBlank(f: Form) {
    f.vrn == "" && f.businessName == "" && f.addressLine == "" && f.postcode == ""
    && f.relation == "" && f.agencyName == "" && f.agencyAddress == "" && f.agentRef == ""
    && f.callerName == "" && f.phoneNumber == "" && f.securityResult == "" && f.brief == ""
    && !AnyChecked(f.pass) && !AnyChecked(f.fail)
  }

  /** The value effect of `resetCall`: blanks the call and keeps the officer's settings. */
  function ResetForm(f: Form): (g: Form)
    ensures CallFieldsBlank(g) && Coherent(g)
    ensures g.officerName == f.officerName && g.ccelRef == f.ccelRef
    ensures |g.pass| == |f.pass| && |g.fail| == |f.fail|
  {
    AgentFieldsUpdated(f.(vrn := "", businessName := "", addressLine := "", postcode := "",
                          relation := "", agencyName := "", agencyAddress := "", agentRef := "",
                          callerName := "", phoneNumber := "", securityResult := "", brief := "",
                          pass := Unticked(f.pass), fail := Unticked(f.fail)))
  }

  /** Emptying the reset's elements one after the other empties exactly the call fields. */
  lemma BlankedCallFields(f: Form)
    ensures Blanked(f, CallFieldIds) ==
              f.(vrn := "", businessName := "", addressLine := "", postcode := "",
                 relation := "", agencyName := "", agencyAddress := "", agentRef := "",
                 callerName := "", phoneNumber := "", securityResult := "", brief := "")
  {
    var g := Blanked(f, CallFieldIds);
    BlankedOnly(f, CallFieldIds);
    CallFieldIdsListed();
    assert g.officerName == Field(g, OfficerName) == f.officerName;
    assert g.ccelRef == Field(g, CcelRef) == f.ccelRef;
    assert g.vrn == Field(g, Vrn) == "" && g.businessName == Field(g, BusinessName) == "";
    assert g.addressLine == Field(g, AddressLine) == "" && g.postcode == Field(g, Postcode) == "";
    assert g.relation == Field(g, Relation) == "" && g.agencyName == Field(g, AgencyName) == "";
    assert g.agencyAddress == Field(g, AgencyAddress) == "" && g.agentRef == Field(g, AgentRef) == "";
    assert g.callerName == Field(g, CallerName) == "" && g.phoneNumber == Field(g, PhoneNumber) == "";
    assert g.securityResult == Field(g, SecurityResult) == "" && g.brief == Field(g, Brief) == "";
  }

  /** The reset visits every element but the two settings. */
  lemma CallFieldIdsListed()
    ensures forall id :: id in CallFieldIds <==> id != OfficerName && id != CcelRef
  {
    var ids := CallFieldIds;
    assert ids[0] == Vrn && ids[1] == BusinessName && ids[2] == AddressLine && ids[3] == Postcode;
    assert ids[4] == Relation && ids[5] == AgencyName && ids[6] == AgencyAddress && ids[7] == AgentRef;
    assert ids[8] == CallerName && ids[9] == PhoneNumber && ids[10] == SecurityResult && ids[11] == Brief;
  }

  /** Resetting twice leaves the form as resetting once. */
  lemma ResetIdempotent(f: Form)
    ensures ResetForm(ResetForm(f)) == ResetForm(f)
  {
  }

  /** The security indicator: the tick or the cross. */
  datatype Indicator = Ok | Warn

  function IndicatorFor(securityResult: string): (ind: Indicator)
    ensures ind == Ok <==> Trim(securityResult) == "Pass"
  {
    if Trim(securityResult) == "Pass" then Ok else Warn
  }

  // Keys of the settings in the key-value store.
  const OfficerNameKey: string := "officerName"
  const CcelRefKey: string := "ccelRef"

  /** Shown in the introduction when no officer name is set. */
  const NamePlaceholder: string := "[Name]"

  /** `getItem(key) || ""`: an absent key and an empty value both load as "". */
  function StoredValue(store: map<string, string>, key: string): (v: string)
    ensures key !in store ==> v == ""
    ensures key in store ==> v == store[key]
  {
    if key in store then store[key] else ""
  }

  /** The store after `saveSettings`: both settings written, trimmed, under their keys. */
  function SettingsSaved(store: map<string, string>, officerName: string, ccelRef: string): (s: map<string, string>)
    ensures s.Keys == store.Keys + {OfficerNameKey, CcelRefKey}
    ensures forall k :: k in store && k != OfficerNameKey && k != CcelRefKey ==> s[k] == store[k]
  {
    store[OfficerNameKey := Trim(officerName)][CcelRefKey := Trim(ccelRef)]
  }

  /** The introduction's officer label: the name, or the placeholder when there is none. */
  function IntroLabel(name: string): (shown: string)
    ensures shown != ""
    ensures name != "" ==> shown == name
    ensures name == "" ==> shown == NamePlaceholder
  {
    if name == "" then NamePlaceholder else name
  }

  /** Saving and then loading gives back the trimmed settings; saving what was loaded
      changes nothing in the store. */
  lemma SettingsRoundTrip(store: map<string, string>, officerName: string, ccelRef: string)
    ensures StoredValue(SettingsSaved(store, officerName, ccelRef), OfficerNameKey) == Trim(officerName)
    ensures StoredValue(SettingsSaved(store, officerName, ccelRef), CcelRefKey) == Trim(ccelRef)
    ensures var s := SettingsSaved(store, officerName, ccelRef);
            SettingsSaved(s, StoredValue(s, OfficerNameKey), StoredValue(s, CcelRefKey)) == s
  {
    var s := SettingsSaved(store, officerName, ccelRef);
    var name, ref := StoredValue(s, OfficerNameKey), StoredValue(s, CcelRefKey);
    assert OfficerNameKey[0] != CcelRefKey[0];
    assert name == Trim(officerName) && ref == Trim(ccelRef);
    TrimIdempotent(officerName);
    TrimIdempotent(ccelRef);
    UpdateWithSame(s, OfficerNameKey);
    UpdateWithSame(s, CcelRefKey);
  }

  /** Writing back the value a key already holds leaves the store as it was. */
  lemma UpdateWithSame(m: map<string, string>, k: string)
    requires k in m
    ensures m[k := m[k]] == m
  {
  }
}
