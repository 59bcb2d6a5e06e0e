/** The call form page as the browser holds it: the form elements, the two checklists of
    checkboxes, the display state derived from them (visible blocks, the indicator, the
    officer label, the rendered notes) and the key-value store the settings live in. Its
    methods are the page's handlers, which update all of this in place. */
module CallFormPage {
  import opened JsText
  import opened CallState
  import opened Notes

  /** The clearing rules hold of `f`, and the agent block, the two checklist blocks and the
      indicator are shown as `f` calls for. */
  predicate Settled(f: Form, agentShown: bool, passShown: bool, failShown: bool, ind: Indicator) {
    Coherent(f)
    && agentShown == (f.relation == "Agent")
    && passShown == (Trim(f.securityResult) == "Pass")
    && failShown == (Trim(f.securityResult) == "Fail")
    && ind == IndicatorFor(f.securityResult)
  }

  /** A blank call shows no block and the cross. */
  lemma BlankSettles(f: Form)
    requires CallFieldsBlank(f)
    ensures Settled(f, false, false, false, Warn)
  {
    TrimFixed("");
  }

  /** After a reset the form is settled with every block hidden and the cross shown. */
  lemma ResetSettles(f: Form)
    ensures Settled(ResetForm(f), false, false, false, Warn)
  {
    BlankSettles(ResetForm(f));
  }

  /** Typing into a text element keeps the form settled, the agency elements being typed
      into only while their block is shown. */
  lemma TypingKeepsSettled(f: Form, id: FieldId, v: string, agentShown: bool, passShown: bool, failShown: bool, ind: Indicator)
    requires Settled(f, agentShown, passShown, failShown, ind)
    requires id != Relation && id != SecurityResult
    requires IsAgentField(id) ==> agentShown
    ensures Settled(WithField(f, id, v), agentShown, passShown, failShown, ind)
  {
    TypingKeepsCoherent(f, id, v);
    WithFieldOnly(f, id, v);
    assert WithField(f, id, v).relation == Field(WithField(f, id, v), Relation) == f.relation;
    assert WithField(f, id, v).securityResult == Field(WithField(f, id, v), SecurityResult) == f.securityResult;
  }

  /** Choosing a relationship and applying the agent rule settles the form, with the agent
      block shown exactly for "Agent". */
  lemma RelationChoiceSettles(f: Form, v: string, agentShown: bool, passShown: bool, failShown: bool, ind: Indicator)
    requires Settled(f, agentShown, passShown, failShown, ind)
    ensures Settled(AgentFieldsUpdated(f.(relation := v)), v == "Agent", passShown, failShown, ind)
  {
  }

  /** Choosing a security result and applying the checklist rule settles the form, with the
      blocks and the indicator following the new result. */
  lemma SecurityChoiceSettles(f: Form, v: string, agentShown: bool, passShown: bool, failShown: bool, ind: Indicator)
    requires Settled(f, agentShown, passShown, failShown, ind)
    ensures Settled(SecurityDetailsUpdated(f.(securityResult := v)), agentShown,
                    Trim(v) == "Pass", Trim(v) == "Fail", IndicatorFor(v))
  {
  }

  /** Ticking or unticking a box of a shown checklist keeps the form settled. */
  lemma TickSettles(f: Form, list: Checklist, i: nat, ticked: bool,
                    agentShown: bool, passShown: bool, failShown: bool, ind: Indicator)
    requires Settled(f, agentShown, passShown, failShown, ind)
    requires i < |Flags(f, list)|
    requires list == PassList ==> passShown
    requires list == FailList ==> failShown
    ensures Settled(Ticked(f, list, i, ticked), agentShown, passShown, failShown, ind)
  {
    var g := Ticked(f, list, i, ticked);
    if AnyChecked(g.pass) && list == PassList && !ticked {
      var j :| 0 <= j < |g.pass| && g.pass[j];
      assert f.pass[j];
    }
    if AnyChecked(g.fail) && list == FailList && !ticked {
      var j :| 0 <= j < |g.fail| && g.fail[j];
      assert f.fail[j];
    }
  }

  class CallForm {
    /** The values of the form elements and of the checklist boxes. */
    var values: Form

    // Display state.
    var agentBlockShown: bool
    var passBlockShown: bool
    var failBlockShown: bool
    var indicator: Indicator
    var introLabel: string
    var ccelNote: string
    var sapNote: string

    /** The browser's key-value store. */
    var storage: map<string, string>

    /** Between events each checklist has its six boxes and the form is settled by what is
        shown. */
    ghost predicate Consistent()
      reads this`values, this`agentBlockShown, this`passBlockShown, this`failBlockShown, this`indicator
    {
      |values.pass| == ChecklistSize && |values.fail| == ChecklistSize
      && Settled(values, agentBlockShown, passBlockShown, failBlockShown, indicator)
    }

    /** Both rendered notes are those of the current values: `ccelNote == CcelNote(values)`
        and `sapNote == SapNote(values)`, as NotesAreRendered states. It is written for every
        form equal to the current values so that the renderers are unfolded only where a note
        is read; stated directly, the renderers unfold in every handler's proof and the
        handlers no longer verify within the resource limit. */
    ghost predicate NotesCurrent()
      reads this`values, this`ccelNote, this`sapNote
    {
      (forall f :: f == values ==> ccelNote == CcelNote(f))
      && (forall f :: f == values ==> sapNote == SapNote(f))
    }

    /** The notes as they were rendered: those of the current values. */
    lemma NotesAreRendered()
      requires NotesCurrent()
      ensures ccelNote == CcelNote(values) && sapNote == SapNote(values)
    {
    }

    /** Page load: empty elements and unticked boxes, then the settings loaded from `store`,
        the agent block and the indicator brought up to date and both notes rendered. */
    constructor (store: map<string, string>)
      ensures Consistent() && NotesCurrent()
      ensures storage == store
      ensures values.officerName == StoredValue(store, OfficerNameKey)
      ensures values.ccelRef == StoredValue(store, CcelRefKey)
      ensures introLabel == IntroLabel(values.officerName)
      ensures CallFieldsBlank(values)
      ensures !agentBlockShown && !passBlockShown && !failBlockShown && indicator == Warn
    {
      var unticked := seq(ChecklistSize, _ => false);
      values := Form("", "", "", "", "", "", "", "", "", "", "", "", "", "", unticked, unticked);
      agentBlockShown, passBlockShown, failBlockShown := false, false, false;
      indicator, introLabel, ccelNote, sapNote := Warn, "", "", "";
      storage := store;
      new;
      LoadSettings();
      UpdateAgentFields();
      UpdateSecurityIndicator();
      BlankSettles(values);
      UpdateNotes();
    }

    /** `loadSettings`: both settings read from the store, as stored, and the label set. */
    method LoadSettings()
      modifies this`values, this`introLabel
      ensures values == old(values).(officerName := StoredValue(storage, OfficerNameKey),
                                     ccelRef := StoredValue(storage, CcelRefKey))
      ensures introLabel == IntroLabel(values.officerName)
    {
      var name := StoredValue(storage, OfficerNameKey);
      var ref := StoredValue(storage, CcelRefKey);
      values := values.(officerName := name, ccelRef := ref);
      introLabel := IntroLabel(name);
    }

    /** `saveSettings`: both settings written to the store trimmed, and the label set. */
    method SaveSettings()
      modifies this`storage, this`introLabel
      ensures storage == SettingsSaved(old(storage), values.officerName, values.ccelRef)
      ensures introLabel == IntroLabel(Trim(values.officerName))
    {
      storage := storage[OfficerNameKey := Trim(values.officerName)];
      storage := storage[CcelRefKey := Trim(values.ccelRef)];
      introLabel := IntroLabel(Trim(values.officerName));
    }

    /** `updateAgentFields`: shows the agent block for an agent, otherwise hides it and
        empties the three agency fields. */
    method UpdateAgentFields()
      modifies this`values, this`agentBlockShown
      ensures values == AgentFieldsUpdated(old(values))
      ensures agentBlockShown == (values.relation == "Agent")
    {
      var isAgent := values.relation == "Agent";
      agentBlockShown := isAgent;
      if !isAgent {
        values := values.(agencyName := "");
        values := values.(agencyAddress := "");
        values := values.(agentRef := "");
      }
    }

    /** `updateSecurityIndicator`: the tick for a (trimmed) "Pass", the cross otherwise. */
    method UpdateSecurityIndicator()
      modifies this`indicator
      ensures indicator == IndicatorFor(values.securityResult)
      ensures indicator == Ok <==> Trim(values.securityResult) == "Pass"
    {
      var val := Trim(values.securityResult);
      if val == "Pass" {
        indicator := Ok;
      } else {
        indicator := Warn;
      }
    }

    /** Unticks every box of one checklist, one checkbox after the other. */
    method UntickAll(list: Checklist)
      modifies this`values
      ensures values == WithFlags(old(values), list, Unticked(Flags(old(values), list)))
    {
      var n := |Flags(values, list)|;
      var i := 0;
      while i < n
        invariant 0 <= i <= n
        invariant values == WithFlags(old(values), list, Flags(values, list))
        invariant |Flags(values, list)| == n
        invariant forall k :: 0 <= k < i ==> !Flags(values, list)[k]
      {
        values := WithFlags(values, list, Flags(values, list)[i := false]);
        i := i + 1;
      }
      assert Flags(values, list) == Unticked(Flags(old(values), list));
    }

    /** `clearPassFailSelections`: unticks both checklists. */
    method ClearPassFailSelections()
      modifies this`values
      ensures values == old(values).(pass := Unticked(old(values.pass)), fail := Unticked(old(values.fail)))
    {
      UntickAll(PassList);
      UntickAll(FailList);
    }

    /** `updateSecurityDetailsBlocks`: shows the block matching the result, unticks the other
        checklist (both for any other result) and updates the indicator. */
    method UpdateSecurityDetailsBlocks()
      modifies this`values, this`passBlockShown, this`failBlockShown, this`indicator
      ensures values == SecurityDetailsUpdated(old(values))
      ensures passBlockShown == (Trim(values.securityResult) == "Pass")
      ensures failBlockShown == (Trim(values.securityResult) == "Fail")
      ensures indicator == IndicatorFor(values.securityResult)
    {
      var val := Trim(values.securityResult);
      if val == "Pass" {
        passBlockShown, failBlockShown := true, false;
        UntickAll(FailList);
      } else if val == "Fail" {
        passBlockShown, failBlockShown := false, true;
        UntickAll(PassList);
      } else {
        passBlockShown, failBlockShown := false, false;
        ClearPassFailSelections();
      }
      UpdateSecurityIndicator();
    }

    /** `updateNotes`: renders both notes from the current values. */
    method UpdateNotes()
      modifies this`ccelNote, this`sapNote
      ensures NotesCurrent()
    {
      ccelNote := CcelNote(values);
      sapNote := SapNote(values);
    }

    /** The first part of `resetCall`: each call element emptied, one after the other. */
    method BlankCallFields()
      modifies this`values
      ensures values == Blanked(old(values), CallFieldIds)
    {
      var i := 0;
      while i < |CallFieldIds|
        invariant 0 <= i <= |CallFieldIds|
        invariant values == Blanked(old(values), CallFieldIds[..i])
      {
        values := WithField(values, CallFieldIds[i], "");
        assert CallFieldIds[..i + 1][..i] == CallFieldIds[..i];
        i := i + 1;
      }
      assert CallFieldIds[..i] == CallFieldIds;
    }

    /** `resetCall`: empties every call element, unticks and hides both checklists, updates
        the indicator and the agent block and renders the notes; the settings stay. */
    method ResetCall()
      requires Consistent()
      modifies this
      ensures values == ResetForm(old(values))
      ensures Consistent() && NotesCurrent()
      ensures storage == old(storage) && introLabel == old(introLabel)
    {
      BlankCallFields();
      BlankedCallFields(old(values));
      ClearPassFailSelections();
      passBlockShown, failBlockShown := false, false;
      UpdateSecurityIndicator();
      UpdateAgentFields();
      assert values == ResetForm(old(values));
      ResetSettles(old(values));
      UpdateNotes();
    }

    /** Typing into a text element: the value is stored as typed, the settings are saved when
        it is one of them, and the notes are rendered again. The agency elements can only be
        typed into while the agent block is shown. */
    method SetText(id: FieldId, v: string)
      requires Consistent()
      requires id != Relation && id != SecurityResult
      requires IsAgentField(id) ==> agentBlockShown
      modifies this
      ensures Consistent() && NotesCurrent()
      ensures values == WithField(old(values), id, v)
      ensures storage == if id == OfficerName || id == CcelRef
                         then SettingsSaved(old(storage), values.officerName, values.ccelRef) else old(storage)
      ensures introLabel == if id == OfficerName || id == CcelRef
                            then IntroLabel(Trim(values.officerName)) else old(introLabel)
    {
      TypeInto(id, v);
      if id == OfficerName || id == CcelRef {
        SaveSettings();
      }
      UpdateNotes();
    }

    /** The value of a text element replaced, which keeps the form settled. */
    method TypeInto(id: FieldId, v: string)
      requires Consistent()
      requires id != Relation && id != SecurityResult
      requires IsAgentField(id) ==> agentBlockShown
      modifies this`values
      ensures Consistent()
      ensures values == WithField(old(values), id, v)
    {
      TypingKeepsSettled(values, id, v, agentBlockShown, passBlockShown, failBlockShown, indicator);
      WithFieldOnly(values, id, v);
      values := WithField(values, id, v);
    }

    /** Choosing a relationship: a non-agent relationship empties the agency fields. */
    method SetRelation(v: string)
      requires Consistent()
      modifies this
      ensures Consistent() && NotesCurrent()
      ensures values == AgentFieldsUpdated(old(values).(relation := v))
      ensures storage == old(storage) && introLabel == old(introLabel)
    {
      RelationChoiceSettles(values, v, agentBlockShown, passBlockShown, failBlockShown, indicator);
      values := values.(relation := v);
      UpdateAgentFields();
      UpdateNotes();
    }

    /** Choosing a security result: the other checklist (both, for neither result) is
        unticked and the indicator follows. */
    method SetSecurityResult(v: string)
      requires Consistent()
      modifies this
      ensures Consistent() && NotesCurrent()
      ensures values == SecurityDetailsUpdated(old(values).(securityResult := v))
      ensures storage == old(storage) && introLabel == old(introLabel)
    {
      SecurityChoiceSettles(values, v, agentBlockShown, passBlockShown, failBlockShown, indicator);
      values := values.(securityResult := v);
      UpdateSecurityDetailsBlocks();
      UpdateNotes();
    }

    /** Ticking or unticking one box of a checklist whose block is shown. */
    method SetCheck(list: Checklist, i: nat, ticked: bool)
      requires Consistent() && i < ChecklistSize
      requires list == PassList ==> passBlockShown
      requires list == FailList ==> failBlockShown
      modifies this`values, this`ccelNote, this`sapNote
      ensures Consistent() && NotesCurrent()
      ensures values == Ticked(old(values), list, i, ticked)
    {
      TickSettles(values, list, i, ticked, agentBlockShown, passBlockShown, failBlockShown, indicator);
      values := Ticked(values, list, i, ticked);
      UpdateNotes();
    }
  }

  /** Saving the settings and loading the page again restores them, trimmed, and keeps the
      same store. */
  method ReloadAfterSave(form: CallForm) returns (reloaded: CallForm)
    modifies form`storage, form`introLabel
    ensures fresh(reloaded) && reloaded.storage == form.storage
    ensures reloaded.values.officerName == Trim(form.values.officerName)
    ensures reloaded.values.ccelRef == Trim(form.values.ccelRef)
    ensures reloaded.introLabel == IntroLabel(Trim(form.values.officerName))
    ensures CallFieldsBlank(reloaded.values)
  {
    form.SaveSettings();
    SettingsRoundTrip(old(form.storage), form.values.officerName, form.values.ccelRef);
    reloaded := new CallForm(form.storage);
  }
}
