# Call notes form — a verified model

The page is a single-call form used by a contact-centre officer. The officer types the
caller's details and picks a relationship and a security result; for "Pass" or "Fail" a
checklist of six boxes appears. From these values the page keeps two notes up to date: a
CCEL note and a SAP note. Each is a fixed sequence of labelled lines joined by line breaks,
and each carries a security summary line. The officer's name and CCEL reference are
settings kept in the browser's key-value store. A reset button empties the call and keeps
the settings.

The model has four modules:

- `JsText` (`js_text.dfy`): the JavaScript string built-ins the page relies on. `Trim`
  follows `String.prototype.trim` over the ECMAScript white-space and line-terminator code
  points. `Join` is `Array.prototype.join`, and `NonEmpty` is `filter(Boolean)` over
  strings.
- `CallState` (`call_state.dfy`): the form's values as a `Form` record with two
  six-box checklists. It defines the clearing rules as functions on that record (agency
  fields emptied for a non-agent, the checklist not matching the result unticked, the
  reset). It also holds the settings store as a `map<string, string>`, and the invariant
  the rules keep (`Coherent`: no stale agency data, and ticked boxes only in the checklist
  matching the result).
- `Notes` (`notes.dfy`): the renderers `SecurityLine`, `CcelNote` and `SapNote`. These are
  pure functions of a `Form`, with lemmas on wording, line order and framing.
- `CallFormPage` (`call_form.dfy`): the page itself as a class `CallForm`. Its handlers
  update the element values, the shown blocks, the indicator, the officer label, the
  rendered notes and the store in place. Every handler keeps `Consistent()`, which is the
  coherence invariant plus the shown blocks and indicator matching the values.

Text elements hold what was typed, and values are trimmed only when they are read: by the
renderers, by the indicator and checklist rules, and when the settings are saved. Two
consequences of the rendering code are worth stating plainly:

- A security result that is neither "Pass" nor "Fail" renders as "Security: " followed by
  the trimmed value. Only an empty or white-space-only result renders as "Security: N/A".
- An empty field renders as its bare label (for example "VRN: "). The brief (a dash), the
  security result ("Security: N/A", above) and the SAP note's relationship ("N/A") are the
  only fields with a fallback marker.

## Model

| member | source | states |
|---|---|---|
| JsText.Trim | script.js:259 | `safe`: the result has no white space at either end |
| JsText.TrimSplits | script.js:259 | trimming keeps an infix of the input and cuts only white space, on both sides |
| JsText.TrimEmptyIff | script.js:259 | the trimmed value is empty exactly when the input is empty or all white space |
| JsText.TrimIdempotent | script.js:259 | trimming a trimmed value changes nothing |
| JsText.NonEmpty | script.js:227 | `filter(Boolean)` keeps exactly the non-empty parts |
| JsText.NonEmptyConcat | script.js:227 | `filter(Boolean)` over a concatenation is the concatenation of the filtered halves, so the kept parts stay in order |
| JsText.JoinConcat | script.js:241 | joining two non-empty line lists puts one separator between the two joined halves |
| JsText.JoinPresentPair | script.js:227 | joining the present parts of a pair gives the one part present, or both with the separator |
| CallState.Unticked | script.js:159-162 | every box of a checklist unticked, same number of boxes |
| CallState.ChecklistsExclusive | script.js:164-189 | in a coherent form at most one checklist has a ticked box, and it matches the trimmed result |
| CallState.AgentFieldsUpdated | script.js:124-138 | for a non-agent relation the three agency fields are empty and no other field changes; for "Agent" nothing changes |
| CallState.AgentFieldsIdempotent | script.js:329-335 | applying the agent rule twice, as the `input` and `change` handlers of the select do, is the same as applying it once |
| CallState.SecurityDetailsUpdated | script.js:164-189 | afterwards ticked boxes are only in the checklist matching the result; only the checklists change; "Pass" keeps the pass list and "Fail" the fail list |
| CallState.SecurityDetailsIdempotent | script.js:330-336 | applying the checklist rule twice, as the `input` and `change` handlers of the select do, is the same as applying it once |
| CallState.IndicatorFor | script.js:141-157 | the tick exactly when the trimmed result is "Pass", the cross otherwise |
| CallState.WithFieldOnly | script.js:326-332 | writing one element changes that element's value and nothing else |
| CallState.TypingKeepsCoherent | script.js:326-332 | typing into a text element keeps the clearing rules, given that agency elements are typed into only for an agent |
| CallState.Ticked | script.js:342-344 | ticking or unticking box `i` of one checklist sets that box, keeps every other box of both checklists and every other value |
| CallState.BlankedOnly | script.js:288-297 | emptying a list of elements one after the other empties exactly those elements |
| CallState.CallFieldIdsListed | script.js:288-291 | the reset visits every element except the two settings |
| CallState.BlankedCallFields | script.js:288-297 | the reset loop empties VRN through brief, selects included, and keeps the settings |
| CallState.ResetForm | script.js:287-310 | after a reset every call field is empty, every box is unticked, the form is coherent and the settings are kept |
| CallState.ResetIdempotent | script.js:287-310 | resetting twice gives the same form as resetting once |
| CallState.StoredValue | script.js:96-97 | a missing key loads as "", a present key loads as stored |
| CallState.SettingsSaved | script.js:102-104 | both keys are present afterwards and every other key keeps its value |
| CallState.IntroLabel | script.js:100-105 | the name when it is non-empty, "[Name]" when it is empty |
| CallState.SettingsRoundTrip | script.js:95-106 | loading after a save gives the trimmed settings back; saving what was loaded leaves the store as it was |
| Notes.CheckedPhrases | script.js:197-213 | never more detail phrases than the checklist has boxes; which phrases, and in what order, is proved in `CheckedPhrasesInOrder` and `CheckedPhrasesSix` |
| Notes.CheckedIndices | script.js:196-216 | the ticked positions, strictly increasing, all of them |
| Notes.CheckedPhrasesInOrder | script.js:196-216 | the k-th detail phrase is the phrase of the k-th ticked box in declaration order, whatever order the boxes were ticked in |
| Notes.CheckedPhrasesEmpty | script.js:204 | no phrase is listed exactly when no box is ticked |
| Notes.CheckedPhrasesSix | script.js:197-203 | over six boxes the phrases are the six conditional pushes, box by box |
| Notes.SecurityLine | script.js:192-217 | the security line always starts with "Security: " |
| Notes.SecurityLineUnset | script.js:193-194 | an empty or all-white-space result gives exactly "Security: N/A"; any other result that is neither "Pass" nor "Fail" gives "Security: " and the trimmed value |
| Notes.SecurityLineReadsMatchingChecklist | script.js:196-216 | "Pass" reads only the pass list, "Fail" only the fail list, any other result neither |
| Notes.SecurityLineDetails | script.js:204-205 | for "Pass"/"Fail" the " (details: …)" suffix appears exactly when a matching box is ticked, and then lists the phrases joined by "; " |
| Notes.SecurityLinePassExample | script.js:196-205 | "Pass" with EDR and ARN ticked gives "Security: Pass (details: PASSED EDR confirmed; PASSED ARN confirmed)" |
| Notes.BriefText | script.js:240 | the trimmed brief when it is non-empty, the dash when the brief is empty or white space only |
| Notes.AddressText | script.js:227 | the trimmed address line and postcode, joined by a space when both are present, the one present otherwise, empty when neither is |
| Notes.AgencyText | script.js:232 | the trimmed agency name and address, joined by a spaced vertical bar when both are present, the one present otherwise, empty when neither is |
| Notes.SapRelation | script.js:249 | "N/A" when the relation is empty or white space only, the trimmed relation otherwise |
| Notes.CcelLines | script.js:219-242 | 16 lines for an agent and 14 otherwise, opening with the disclaimer and an empty line and ending with the security line, an empty line, the brief header and the brief |
| Notes.CcelHead | script.js:221-230 | the nine lines up to the relationship, opening with the disclaimer and an empty line |
| Notes.CcelHeadLines | script.js:221-230 | lines 2 to 8 of the CCEL note are, in order, the labelled officer, VRN, CCEL reference, business name, address composite, caller name and relationship, each trimmed |
| Notes.CcelAgencyBlock | script.js:231-235 | two lines for the relation "Agent", none otherwise |
| Notes.CcelTail | script.js:236-240 | the five closing lines: phone, security line, empty line, brief header, brief |
| Notes.SapLines | script.js:244-257 | ten lines: disclaimer, empty line, the security line at position 5, then an empty line, the brief header and the brief |
| Notes.SapLabelledLines | script.js:248-252 | the labelled SAP lines: VRN and CCEL reference, caller name with the relationship or "N/A", business and postcode, and phone, each trimmed |
| Notes.JoinedEnds | script.js:241 | a joined note starts with its first two lines and ends with its last two |
| Notes.JoinedLineAt | script.js:241 | each inner line of a joined note sits between two line breaks |
| Notes.CcelNote | script.js:219-242 | the CCEL note is never blank: it starts with the disclaimer and an empty line and ends with the brief header and the brief |
| Notes.SapNote | script.js:244-257 | the SAP note is never blank: it starts with the disclaimer and an empty line and ends with the brief header and the brief |
| Notes.CcelNoteSecurityLine | script.js:237 | the CCEL note holds the security line as a whole line |
| Notes.SapNoteSecurityLine | script.js:251 | the SAP note holds the security line as a whole line |
| Notes.CcelAgencyLines | script.js:231-235 | the CCEL note has "Agency: " and "Agent Ref: " lines exactly when the relation is "Agent", and then they follow the relationship line |
| Notes.EmptyFieldsBareLabels | script.js:223-236 | with every identity field empty or white space only, each labelled line of the CCEL note is its bare label |
| Notes.EmptyFieldsBareLabelsSap | script.js:248-252 | the same for the SAP note, where only the relationship shows "N/A" |
| Notes.BlankCallNotes | script.js:219-257 | a blank call renders both notes with "Security: N/A", the disclaimer and the dash as brief |
| CallFormPage.BlankSettles | script.js:348-351 | a blank call shows no block and shows the cross |
| CallFormPage.ResetSettles | script.js:299-307 | after a reset every block is hidden and the cross is shown |
| CallFormPage.TypingKeepsSettled | script.js:326-332 | typing into a text element keeps the shown blocks and the indicator right |
| CallFormPage.RelationChoiceSettles | script.js:329 | choosing a relation settles the form with the agent block shown exactly for "Agent" |
| CallFormPage.SecurityChoiceSettles | script.js:330 | choosing a result settles the form with the blocks and the indicator following the result |
| CallFormPage.TickSettles | script.js:342-344 | ticking or unticking a box of a shown checklist keeps the form settled |
| CallFormPage.CallForm.NotesAreRendered | script.js:260-263 | the rendered notes are those of the current values |
| CallFormPage.CallForm.constructor | script.js:313-351 | page load over blank markup: settings loaded from the store, blank call, no block shown, the cross, both notes rendered |
| CallFormPage.CallForm.LoadSettings | script.js:95-101 | both settings are read from the store as stored, and the label is set from the name |
| CallFormPage.CallForm.SaveSettings | script.js:102-106 | both settings are written trimmed under their keys, and the label is set from the trimmed name |
| CallFormPage.CallForm.UpdateAgentFields | script.js:124-138 | the values become `AgentFieldsUpdated` of the old values; the agent block is shown exactly for "Agent" |
| CallFormPage.CallForm.UpdateSecurityIndicator | script.js:141-157 | the indicator is the tick exactly when the trimmed result is "Pass" |
| CallFormPage.CallForm.UntickAll | script.js:160-161 | the checkbox loop unticks every box of one checklist and nothing else |
| CallFormPage.CallForm.ClearPassFailSelections | script.js:159-162 | both checklists unticked, every other value kept |
| CallFormPage.CallForm.UpdateSecurityDetailsBlocks | script.js:164-189 | the values become `SecurityDetailsUpdated` of the old; the block matching the trimmed result is shown; the indicator follows |
| CallFormPage.CallForm.UpdateNotes | script.js:260-263 | both notes are rendered from the current values |
| CallFormPage.CallForm.BlankCallFields | script.js:288-297 | the element loop empties the twelve call elements in order |
| CallFormPage.CallForm.ResetCall | script.js:287-310 | the values become `ResetForm` of the old; the page stays consistent with the notes re-rendered; store and label unchanged |
| CallFormPage.CallForm.SetText | script.js:326-332 | typing stores the value; for the two setting elements only, it saves the settings and sets the label from the trimmed name; it keeps the page consistent and re-renders the notes |
| CallFormPage.CallForm.TypeInto | script.js:326-332 | the typed value replaces one element's value and the page stays consistent |
| CallFormPage.CallForm.SetRelation | script.js:329-337 | choosing a relation applies the agent rule, keeps the page consistent and re-renders the notes; store and label unchanged |
| CallFormPage.CallForm.SetSecurityResult | script.js:330-336 | choosing a result applies the checklist rule and the indicator, keeps the page consistent and re-renders the notes; store and label unchanged |
| CallFormPage.CallForm.SetCheck | script.js:342-344 | ticking a box of a shown checklist keeps the page consistent and re-renders the notes |
| CallFormPage.ReloadAfterSave | script.js:95-106 | saving, then loading the page again on the same store, restores the trimmed settings and a blank call |

## Left out

- Clipboard copying, with its asynchronous API and the `execCommand` fallback (script.js:3-24). This is browser I/O.
- The toast message and its timer (script.js:26-48). This is UI and timing.
- Element lookup, CSS class toggling, and the indicator's glyph, ARIA label and title (script.js:51-92, 128-133, 145-155, 167-185). Shown blocks are booleans, and the indicator is `Ok`/`Warn`.
- Open/closed persistence of the two detail panels (script.js:109-121). It is UI state outside the form.
- Listener wiring and the copy buttons (script.js:266-284, 313-346). Each event is an explicit handler method instead.
- A select fires both `input` and `change`, so its handler runs twice. The model runs it once. The effect is the same because both rules are idempotent (`AgentFieldsIdempotent`, `SecurityDetailsIdempotent`).
- The page tolerates missing elements (`if (!el) return`, `cb && …`, `?.checked`). The model assumes every element exists. The one exception is `Checked`, where a box beyond the list reads as unticked.
- `(v || "").toString()` in `safe`: element values are always strings here, so null and undefined are not modelled.
- CallFormPage.CallForm.SetText: requires the agent block to be shown before an agency element can be typed into. The page enforces this by hiding those inputs, and a hidden input cannot be typed into.
- CallFormPage.CallForm.SetCheck: requires the checklist's block to be shown, for the same reason.
- CallFormPage.CallForm.constructor: the initial element values, box states and block visibility are assumed to be the page markup's defaults: empty, unticked and hidden. The markup is not part of this model, and the load handler (script.js:313-351) does not clear them itself. A browser restoring form values on reload is not modelled either. `CallFormPage.ReloadAfterSave`'s blank call rests on the same assumption.
- CallFormPage.CallForm.NotesAreRendered: the notes are tied to the values through a ghost predicate. The rendered text is the renderers' output, and its properties are stated on `CcelNote`/`SapNote`.
- Notes.CcelAgencyLines: the "exactly when" is stated over the note's lines without the last one. The last line is the free-text brief, which may itself begin with "Agency: ".
- JsText.Join: carries no contract of its own. Its properties are stated by `JoinConcat` and `JoinPresentPair`, and stating them on `Join` itself makes the renderers that call it too costly to verify.
- Each element's value is modelled inside one `Form` record held by the page, not as a separate object per element. Aliasing between elements does not arise in the page.
