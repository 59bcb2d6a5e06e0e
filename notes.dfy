/** The two notes rendered from the form: the CCEL note and the SAP note, and the
    security summary line both of them carry. Every function here reads a `Form` value
    and nothing else. */
module Notes {
  import opened JsText
  import opened CallState

  const Disclaimer: string :=
    "All calls are digitally recorded." + " To request a copy of this call please email DL-CC Head Office Quality."
  const CcelBriefHeader: string := "Brief — What they wanted / What you did:"
  const SapBriefHeader: string := "Brief:"
  /** What the brief section shows when the brief is empty. */
  const NoBrief: string := "—"

  /** The phrase for each box of the pass checklist, in declaration order. */
  const PassPhrases: seq<string> := [
    "PASSED box five figure confirmed",
    "PASSED EDR confirmed",
    "PASSED ARN confirmed",
    "PASSED via VAT form 64-8",
    "PASSED agent unable to confirm ARN but confirmed answers to other account questions",
    "PASSED via EIS reference"]

  /** The phrase for each box of the fail checklist, in declaration order. */
  const FailPhrases: seq<string> := [
    "FAILED unable to confirm box 5 figure",
    "FAILED unable to confirm EDR",
    "FAILED unable to confirm VRN",
    "FAILED agent not authorised",
    "FAILED not authorised",
    "FAILED agent unable to confirm agent ref or answer other account questions"]

  /** The positions below `n` whose box is ticked, in increasing order. */
  ghost function CheckedIndices(flags: seq<bool>, n: nat): (idx: seq<nat>)
    ensures forall k :: 0 <= k < |idx| ==> idx[k] < n && Checked(flags, idx[k])
    ensures forall k, l :: 0 <= k < l < |idx| ==> idx[k] < idx[l]
    ensures forall i :: 0 <= i < n && Checked(flags, i) ==> i in idx
  {
    if n == 0 then [] else CheckedIndices(flags, n - 1) + (if Checked(flags, n - 1) then [n - 1] else [])
  }

  /** The phrases of the ticked boxes, pushed one box after the other. */
  function CheckedPhrases(flags: seq<bool>, phrases: seq<string>): (items: seq<string>)
    ensures |items| <= |phrases|
  {
    if phrases == [] then []
    else
      var n := |phrases| - 1;
      CheckedPhrases(flags, phrases[..n]) + (if Checked(flags, n) then [phrases[n]] else [])
  }

  /** The listed phrases are exactly those of the ticked boxes, in declaration order: the
      k-th item is the phrase of the k-th ticked position. The order in which the boxes
      were ticked plays no part. */
  lemma {:induction false} CheckedPhrasesInOrder(flags: seq<bool>, phrases: seq<string>)
    ensures |CheckedPhrases(flags, phrases)| == |CheckedIndices(flags, |phrases|)|
    ensures forall k :: 0 <= k < |CheckedIndices(flags, |phrases|)| ==>
              CheckedPhrases(flags, phrases)[k] == phrases[CheckedIndices(flags, |phrases|)[k]]
  {
    if phrases != [] {
      var n := |phrases| - 1;
      CheckedPhrasesInOrder(flags, phrases[..n]);
    }
  }

  /** No phrase is listed exactly when no box is ticked. */
  lemma CheckedPhrasesEmpty(flags: seq<bool>, phrases: seq<string>)
    ensures CheckedPhrases(flags, phrases) == [] <==> forall i :: 0 <= i < |phrases| ==> !Checked(flags, i)
  {
    CheckedPhrasesInOrder(flags, phrases);
    var idx := CheckedIndices(flags, |phrases|);
    if idx != [] {
      assert Checked(flags, idx[0]) && idx[0] < |phrases|;
    }
  }

  /** `buildSecurityLine`: the result, trimmed, with the ticked boxes of the matching checklist. */
  function SecurityLine(f: Form): (line: string)
    ensures "Security: " <= line
  {
    var val := Trim(f.securityResult);
    if val != "Pass" && val != "Fail" then
      "Security: " + (if val == "" then "N/A" else val)
    else
      var items := if val == "Pass" then CheckedPhrases(f.pass, PassPhrases)
                   else CheckedPhrases(f.fail, FailPhrases);
      "Security: " + val + (if |items| > 0 then " (details: " + Join(items, "; ") + ")" else "")
  }

  /** An empty or whitespace-only result reads as N/A; any other result that is neither
      "Pass" nor "Fail" is shown, trimmed, as it is. */
  lemma SecurityLineUnset(f: Form)
    ensures AllWhitespace(f.securityResult) ==> SecurityLine(f) == "Security: N/A"
    ensures !AllWhitespace(f.securityResult) && Trim(f.securityResult) != "Pass" && Trim(f.securityResult) != "Fail"
            ==> SecurityLine(f) == "Security: " + Trim(f.securityResult)
  {
    TrimEmptyIff(f.securityResult);
  }

  /** Only the checklist matching the result is read, and for any other result neither. */
  lemma SecurityLineReadsMatchingChecklist(f: Form, pass: seq<bool>, fail: seq<bool>)
    ensures Trim(f.securityResult) == "Pass" ==> SecurityLine(f.(fail := fail)) == SecurityLine(f)
    ensures Trim(f.securityResult) == "Fail" ==> SecurityLine(f.(pass := pass)) == SecurityLine(f)
    ensures Trim(f.securityResult) != "Pass" && Trim(f.securityResult) != "Fail"
            ==> SecurityLine(f.(pass := pass, fail := fail)) == SecurityLine(f)
  {
  }

  /** For "Pass" or "Fail" the details suffix appears exactly when a box of the matching
      checklist is ticked, and then lists their phrases joined by "; ". */
  lemma SecurityLineDetails(f: Form)
    requires Trim(f.securityResult) == "Pass" || Trim(f.securityResult) == "Fail"
    ensures var val := Trim(f.securityResult);
            var flags := if val == "Pass" then f.pass else f.fail;
            var phrases := if val == "Pass" then PassPhrases else FailPhrases;
            (SecurityLine(f) == "Security: " + val <==> forall i :: 0 <= i < ChecklistSize ==> !Checked(flags, i))
            && (SecurityLine(f) != "Security: " + val ==>
                  SecurityLine(f) == "Security: " + val + " (details: " + Join(CheckedPhrases(flags, phrases), "; ") + ")")
  {
    var val := Trim(f.securityResult);
    var flags := if val == "Pass" then f.pass else f.fail;
    var phrases := if val == "Pass" then PassPhrases else FailPhrases;
    CheckedPhrasesEmpty(flags, phrases);
    var items := CheckedPhrases(flags, phrases);
    if |items| > 0 {
      var tail := " (details: " + Join(items, "; ") + ")";
      assert |SecurityLine(f)| == |"Security: " + val| + |tail| > |"Security: " + val|;
    }
  }

  /** The phrase of box `i` as a list of zero or one items: one `push` of the source. */
  function Pushed(flags: seq<bool>, phrases: seq<string>, i: nat): seq<string> {
    if i < |phrases| && Checked(flags, i) then [phrases[i]] else []
  }

  /** Over a six-box checklist the items are the six conditional pushes, box after box. */
  lemma {:induction false} CheckedPhrasesSix(flags: seq<bool>, phrases: seq<string>)
    requires |phrases| == ChecklistSize
    ensures CheckedPhrases(flags, phrases) ==
              Pushed(flags, phrases, 0) + Pushed(flags, phrases, 1) + Pushed(flags, phrases, 2)
              + Pushed(flags, phrases, 3) + Pushed(flags, phrases, 4) + Pushed(flags, phrases, 5)
  {
    var p := phrases;
    assert p[..5][..4] == p[..4] && p[..4][..3] == p[..3] && p[..3][..2] == p[..2];
    assert p[..2][..1] == p[..1] && p[..1][..0] == [];
    assert CheckedPhrases(flags, p[..1]) == Pushed(flags, p, 0);
    assert CheckedPhrases(flags, p[..2]) == CheckedPhrases(flags, p[..1]) + Pushed(flags, p, 1);
    assert CheckedPhrases(flags, p[..3]) == CheckedPhrases(flags, p[..2]) + Pushed(flags, p, 2);
    assert CheckedPhrases(flags, p[..4]) == CheckedPhrases(flags, p[..3]) + Pushed(flags, p, 3);
    assert CheckedPhrases(flags, p[..5]) == CheckedPhrases(flags, p[..4]) + Pushed(flags, p, 4);
    assert CheckedPhrases(flags, p) == CheckedPhrases(flags, p[..5]) + Pushed(flags, p, 5);
  }

  /** Pass with EDR and ARN ticked (in whichever order they were ticked). */
  lemma SecurityLinePassExample(f: Form)
    requires f.securityResult == "Pass"
    requires f.pass == [false, true, true, false, false, false]
    ensures SecurityLine(f) ==
              "Security: Pass (details: " + "PASSED EDR confirmed" + "; " + "PASSED ARN confirmed" + ")"
  {
    TrimFixed("Pass");
    CheckedPhrasesSix(f.pass, PassPhrases);
    var items := CheckedPhrases(f.pass, PassPhrases);
    assert Pushed(f.pass, PassPhrases, 0) == [] && Pushed(f.pass, PassPhrases, 3) == [];
    assert Pushed(f.pass, PassPhrases, 4) == [] && Pushed(f.pass, PassPhrases, 5) == [];
    assert Pushed(f.pass, PassPhrases, 1) == ["PASSED EDR confirmed"];
    assert Pushed(f.pass, PassPhrases, 2) == ["PASSED ARN confirmed"];
    assert items == ["PASSED EDR confirmed"] + ["PASSED ARN confirmed"];
    assert Join(items, "; ") == "PASSED EDR confirmed" + "; " + "PASSED ARN confirmed";
  }

  /** `safe(brief) || "—"`. */
  function BriefText(brief: string): (text: string)
    ensures text != ""
    ensures Trim(brief) == "" ==> text == NoBrief
    ensures Trim(brief) != "" ==> text == Trim(brief)
    ensures AllWhitespace(brief) <==> Trim(brief) == "" && text == NoBrief
  {
    TrimEmptyIff(brief);
    if Trim(brief) == "" then NoBrief else Trim(brief)
  }

  /** The address: the trimmed address line and postcode that are present, joined by a
      space, so an empty part leaves no stray separator. */
  function AddressText(f: Form): (text: string)
    ensures text ==
              if Trim(f.addressLine) == "" then Trim(f.postcode)
              else if Trim(f.postcode) == "" then Trim(f.addressLine)
              else Trim(f.addressLine) + " " + Trim(f.postcode)
  {
    JoinPresentPair(Trim(f.addressLine), Trim(f.postcode), " ");
    Join(NonEmpty([Trim(f.addressLine), Trim(f.postcode)]), " ")
  }

  /** The agency: the trimmed agency name and address that are present, joined by " | ". */
  function AgencyText(f: Form): (text: string)
    ensures text ==
              if Trim(f.agencyName) == "" then Trim(f.agencyAddress)
              else if Trim(f.agencyAddress) == "" then Trim(f.agencyName)
              else Trim(f.agencyName) + " | " + Trim(f.agencyAddress)
  {
    JoinPresentPair(Trim(f.agencyName), Trim(f.agencyAddress), " | ");
    Join(NonEmpty([Trim(f.agencyName), Trim(f.agencyAddress)]), " | ")
  }

  /** The relationship as the SAP note shows it: "N/A" for an empty or white-space-only
      relation, the trimmed relation otherwise. */
  function SapRelation(f: Form): (shown: string)
    ensures shown != ""
    ensures AllWhitespace(f.relation) ==> shown == "N/A"
    ensures !AllWhitespace(f.relation) ==> shown == Trim(f.relation)
  {
    TrimEmptyIff(f.relation);
    if Trim(f.relation) == "" then "N/A" else Trim(f.relation)
  }

  /** The CCEL note's lines up to the relationship. */
  function CcelHead(f: Form): (lines: seq<string>)
    ensures |lines| == 9 && lines[0] == Disclaimer && lines[1] == ""
  {
    [ Disclaimer,
      "",
      "Officer: " + Trim(f.officerName),
      "VRN: " + Trim(f.vrn),
      "CCEL Ref: " + Trim(f.ccelRef),
      "Business Name: " + Trim(f.businessName),
      "Address: " + AddressText(f),
      "Caller Name: " + Trim(f.callerName),
      "Relationship: " + Trim(f.relation) ]
  }

  /** The agency block, present only for an agent. */
  function CcelAgencyBlock(f: Form): (lines: seq<string>)
    ensures |lines| == if f.relation == "Agent" then 2 else 0
  {
    if f.relation == "Agent" then ["Agency: " + AgencyText(f), "Agent Ref: " + Trim(f.agentRef)] else []
  }

  /** The CCEL note's lines from the phone number on. */
  function CcelTail(f: Form): (lines: seq<string>)
    ensures |lines| == 5 && lines[0] == "Phone number: " + Trim(f.phoneNumber)
    ensures lines[1] == SecurityLine(f) && lines[2] == ""
    ensures lines[3] == CcelBriefHeader && lines[4] == BriefText(f.brief)
  {
    [ "Phone number: " + Trim(f.phoneNumber),
      SecurityLine(f),
      "",
      CcelBriefHeader,
      BriefText(f.brief) ]
  }

  /** The lines of the CCEL note, before they are joined. */
  function CcelLines(f: Form): (lines: seq<string>)
    ensures |lines| == if f.relation == "Agent" then 16 else 14
    ensures lines[0] == Disclaimer && lines[1] == ""
    ensures lines[|lines| - 4] == SecurityLine(f) && lines[|lines| - 3] == ""
    ensures lines[|lines| - 2] == CcelBriefHeader && lines[|lines| - 1] == BriefText(f.brief)
    ensures lines[..9] == CcelHead(f) && lines[|lines| - 5..] == CcelTail(f)
  {
    var head, block, tail := CcelHead(f), CcelAgencyBlock(f), CcelTail(f);
    var lines := head + block + tail;
    var n := |lines|;
    assert lines[..9] == head;
    assert lines[n - 5..] == tail;
    assert lines[0] == head[0] && lines[1] == head[1];
    assert lines[n - 4] == tail[1] && lines[n - 3] == tail[2];
    assert lines[n - 2] == tail[3] && lines[n - 1] == tail[4];
    lines
  }

  /** `buildCcelNote`: never blank, it opens with the disclaimer and an empty line and ends
      with the brief header and the brief. */
  function CcelNote(f: Form): (note: string)
    ensures Disclaimer + "\n\n" <= note
    ensures EndsWith(note, "\n" + CcelBriefHeader + "\n" + BriefText(f.brief))
  {
    var lines := CcelLines(f);
    JoinedEnds(lines);
    assert lines[0] + "\n" + lines[1] + "\n" == Disclaimer + "\n\n";
    Join(lines, "\n")
  }

  /** The lines of the SAP note, before they are joined. */
  function SapLines(f: Form): (lines: seq<string>)
    ensures |lines| == 10
    ensures lines[0] == Disclaimer && lines[1] == ""
    ensures lines[5] == SecurityLine(f) && lines[7] == ""
    ensures lines[8] == SapBriefHeader && lines[9] == BriefText(f.brief)
  {
    [ Disclaimer,
      "",
      "VRN: " + Trim(f.vrn) + " | CCEL: " + Trim(f.ccelRef),
      "Name: " + Trim(f.callerName) + " (" + SapRelation(f) + ")",
      "Business: " + Trim(f.businessName) + " | Postcode: " + Trim(f.postcode),
      SecurityLine(f),
      "Phone: " + Trim(f.phoneNumber),
      "",
      SapBriefHeader,
      BriefText(f.brief) ]
  }

  /** `buildSapNote`: never blank, framed in the same way as the CCEL note. */
  function SapNote(f: Form): (note: string)
    ensures Disclaimer + "\n\n" <= note
    ensures EndsWith(note, "\n" + SapBriefHeader + "\n" + BriefText(f.brief))
  {
    var lines := SapLines(f);
    JoinedEnds(lines);
    assert lines[0] + "\n" + lines[1] + "\n" == Disclaimer + "\n\n";
    Join(lines, "\n")
  }

  /** The CCEL note's labelled lines up to the relationship, each with its trimmed field
      and the address composite. */
  lemma CcelHeadLines(f: Form)
    ensures var lines := CcelLines(f);
            lines[2] == "Officer: " + Trim(f.officerName) && lines[3] == "VRN: " + Trim(f.vrn)
            && lines[4] == "CCEL Ref: " + Trim(f.ccelRef) && lines[5] == "Business Name: " + Trim(f.businessName)
            && lines[6] == "Address: " + AddressText(f) && lines[7] == "Caller Name: " + Trim(f.callerName)
            && lines[8] == "Relationship: " + Trim(f.relation)
  {
    var lines, head := CcelLines(f), CcelHead(f);
    assert lines[..9] == head;
    assert lines[2] == head[2] && lines[3] == head[3] && lines[4] == head[4] && lines[5] == head[5];
    assert lines[6] == head[6] && lines[7] == head[7] && lines[8] == head[8];
  }

  /** The SAP note's labelled lines, each with its trimmed fields; the caller's name carries
      the relationship as `SapRelation` shows it. */
  lemma SapLabelledLines(f: Form)
    ensures var lines := SapLines(f);
            lines[2] == "VRN: " + Trim(f.vrn) + " | CCEL: " + Trim(f.ccelRef)
            && lines[3] == "Name: " + Trim(f.callerName) + " (" + SapRelation(f) + ")"
            && lines[4] == "Business: " + Trim(f.businessName) + " | Postcode: " + Trim(f.postcode)
            && lines[6] == "Phone: " + Trim(f.phoneNumber)
  {
  }

  /** `line` is a whole line of `text`, between two line breaks, starting at position `i`. */
  ghost predicate LineAt(text: string, line: string, i: int) {
    0 <= i && i + |line| + 2 <= |text| && text[i..i + |line| + 2] == "\n" + line + "\n"
  }

  ghost predicate EndsWith(text: string, tail: string) {
    |tail| <= |text| && text[|text| - |tail|..] == tail
  }

  /** A line neither first nor last of a joined note sits between two line breaks. */
  lemma {:induction false} JoinedAround(lines: seq<string>, k: nat)
    requires 0 < k < |lines| - 1
    ensures Join(lines, "\n") == Join(lines[..k], "\n") + ("\n" + lines[k] + "\n") + Join(lines[k + 1..], "\n")
  {
    JoinConcat(lines[..k], lines[k..], "\n");
    assert lines[..k] + lines[k..] == lines;
    assert lines[k..][1..] == lines[k + 1..];
  }

  /** A joined note opens with its first two lines and ends with its last two. */
  lemma {:induction false} JoinedEnds(lines: seq<string>)
    requires 3 <= |lines|
    ensures lines[0] + "\n" + lines[1] + "\n" <= Join(lines, "\n")
    ensures EndsWith(Join(lines, "\n"), "\n" + lines[|lines| - 2] + "\n" + lines[|lines| - 1])
  {
    var n, text := |lines|, Join(lines, "\n");
    JoinedAround(lines, 1);
    assert Join(lines[..1], "\n") == lines[0];
    var opening := lines[0] + "\n" + lines[1] + "\n";
    assert text == opening + Join(lines[2..], "\n");
    assert text[..|opening|] == opening;
    JoinedAround(lines, n - 2);
    assert lines[n - 1..] == [lines[n - 1]];
    var ending := "\n" + lines[n - 2] + "\n" + lines[n - 1];
    assert text == Join(lines[..n - 2], "\n") + ending;
    assert text[|text| - |ending|..] == ending;
  }

  /** In a joined note the line at position `k`, neither first nor last, is a whole line:
      it sits between two line breaks, at the position returned. */
  lemma {:induction false} JoinedLineAt(lines: seq<string>, k: nat) returns (at: nat)
    requires 0 < k < |lines| - 1
    ensures LineAt(Join(lines, "\n"), lines[k], at)
  {
    JoinedAround(lines, k);
    at := |Join(lines[..k], "\n")|;
  }

  /** The CCEL note carries the security line as a line of its own. */
  lemma CcelNoteSecurityLine(f: Form)
    ensures exists i :: LineAt(CcelNote(f), SecurityLine(f), i)
  {
    var lines := CcelLines(f);
    var at := JoinedLineAt(lines, |lines| - 4);
    assert LineAt(CcelNote(f), SecurityLine(f), at);
  }

  /** The SAP note carries the security line as a line of its own. */
  lemma SapNoteSecurityLine(f: Form)
    ensures exists i :: LineAt(SapNote(f), SecurityLine(f), i)
  {
    var at := JoinedLineAt(SapLines(f), 5);
    assert LineAt(SapNote(f), SecurityLine(f), at);
  }

  /** Some line of `lines` starts with `prefix`. */
  ghost predicate HasLineStarting(lines: seq<string>, prefix: string) {
    exists k :: 0 <= k < |lines| && prefix <= lines[k]
  }

  /** The CCEL note's lines without the last one, the free-text brief. */
  function CcelFixedLines(f: Form): (lines: seq<string>)
    ensures |lines| == |CcelLines(f)| - 1
  {
    CcelLines(f)[..|CcelLines(f)| - 1]
  }

  /** The agency block: the CCEL note has its "Agency: " and "Agent Ref: " lines exactly when
      the relation is "Agent" (the free-text brief, the last line, is set aside), and then they
      follow the relationship line. */
  lemma CcelAgencyLines(f: Form)
    ensures HasLineStarting(CcelFixedLines(f), "Agency: ") <==> f.relation == "Agent"
    ensures HasLineStarting(CcelFixedLines(f), "Agent Ref: ") <==> f.relation == "Agent"
    ensures f.relation == "Agent" ==>
              CcelLines(f)[9] == "Agency: " + AgencyText(f) && CcelLines(f)[10] == "Agent Ref: " + Trim(f.agentRef)
  {
    if f.relation == "Agent" {
      AgentCcelHasAgencyLines(f);
    } else {
      NonAgentCcelLacksAgencyLines(f);
    }
  }

  lemma AgentCcelHasAgencyLines(f: Form)
    requires f.relation == "Agent"
    ensures CcelLines(f)[9] == "Agency: " + AgencyText(f) && CcelLines(f)[10] == "Agent Ref: " + Trim(f.agentRef)
    ensures HasLineStarting(CcelFixedLines(f), "Agency: ") && HasLineStarting(CcelFixedLines(f), "Agent Ref: ")
  {
    var lines := CcelLines(f);
    assert lines == CcelHead(f) + CcelAgencyBlock(f) + CcelTail(f);
    assert lines[9] == CcelAgencyBlock(f)[0] && lines[10] == CcelAgencyBlock(f)[1];
    var fixed := CcelFixedLines(f);
    assert fixed[9] == lines[9] && fixed[10] == lines[10];
    assert "Agency: " <= fixed[9];
    assert "Agent Ref: " <= fixed[10];
  }

  lemma NonAgentCcelLacksAgencyLines(f: Form)
    requires f.relation != "Agent"
    ensures !HasLineStarting(CcelFixedLines(f), "Agency: ") && !HasLineStarting(CcelFixedLines(f), "Agent Ref: ")
  {
    var lines := CcelLines(f);
    var fixed := CcelFixedLines(f);
    CcelFixedLinesNotAgency(f);
    forall k | 0 <= k < |fixed|
      ensures !("Agency: " <= fixed[k]) && !("Agent Ref: " <= fixed[k])
    {
      if k < 9 {
        assert fixed[k] == lines[..9][k] == CcelHead(f)[k];
      } else {
        assert fixed[k] == lines[|lines| - 5..][k - 9] == CcelTail(f)[k - 9];
      }
      assert !("Ag" <= fixed[k]);
    }
  }

  /** No line of the CCEL note's head or tail, the brief apart, starts with "Ag", which
      both agency labels do. */
  lemma CcelFixedLinesNotAgency(f: Form)
    ensures forall k :: 0 <= k < 9 ==> !("Ag" <= CcelHead(f)[k])
    ensures forall k :: 0 <= k < 4 ==> !("Ag" <= CcelTail(f)[k])
  {
    CcelHeadNotAgency(f);
    CcelTailNotAgency(f);
  }

  lemma CcelTailNotAgency(f: Form)
    ensures forall k :: 0 <= k < 4 ==> !("Ag" <= CcelTail(f)[k])
  {
    var t := CcelTail(f);
    var security := SecurityLine(f);
    assert security[0] == 'S';
    assert t[0][0] == 'P' && t[1] == security && t[3][0] == 'B';
  }

  lemma CcelHeadNotAgency(f: Form)
    ensures forall k :: 0 <= k < 9 ==> !("Ag" <= CcelHead(f)[k])
  {
    var h := CcelHead(f);
    assert h[0][1] == 'l';
    assert h[2][0] == 'O' && h[3][0] == 'V' && h[4][0] == 'C' && h[5][0] == 'B';
    assert h[6][1] == 'd' && h[7][0] == 'C' && h[8][0] == 'R';
  }

  /** The fields a note line shows on its own (all but the agency fields and the brief)
      are empty or white space only. */
  ghost predicate IdentityFieldsEmpty(f: Form) {
    AllWhitespace(f.officerName) && AllWhitespace(f.vrn) && AllWhitespace(f.ccelRef)
    && AllWhitespace(f.businessName) && AllWhitespace(f.addressLine) && AllWhitespace(f.postcode)
    && AllWhitespace(f.callerName) && AllWhitespace(f.relation) && AllWhitespace(f.phoneNumber)
  }

  /** An empty or white-space-only field renders as its bare label in every labelled line
      of the CCEL note. */
  lemma EmptyFieldsBareLabels(f: Form)
    requires IdentityFieldsEmpty(f)
    ensures CcelLines(f)[2] == "Officer: " && CcelLines(f)[3] == "VRN: " && CcelLines(f)[4] == "CCEL Ref: "
    ensures CcelLines(f)[5] == "Business Name: " && CcelLines(f)[6] == "Address: "
    ensures CcelLines(f)[7] == "Caller Name: " && CcelLines(f)[8] == "Relationship: "
    ensures CcelLines(f)[9] == "Phone number: "
  {
    TrimsEmpty(f);
    CcelHeadLines(f);
    assert CcelLines(f)[9] == CcelTail(f)[0];
  }

  /** The same in the SAP note, where only the relationship falls back to "N/A". */
  lemma EmptyFieldsBareLabelsSap(f: Form)
    requires IdentityFieldsEmpty(f)
    ensures SapLines(f)[2] == "VRN: " + " | CCEL: " && SapLines(f)[3] == "Name: " + " (N/A)"
    ensures SapLines(f)[4] == "Business: " + " | Postcode: " && SapLines(f)[6] == "Phone: "
  {
    TrimsEmpty(f);
    SapLabelledLines(f);
  }

  /** Every field of `IdentityFieldsEmpty` trims to "", and the relation is not "Agent". */
  lemma TrimsEmpty(f: Form)
    requires IdentityFieldsEmpty(f)
    ensures Trim(f.officerName) == "" && Trim(f.vrn) == "" && Trim(f.ccelRef) == ""
    ensures Trim(f.businessName) == "" && Trim(f.addressLine) == "" && Trim(f.postcode) == ""
    ensures Trim(f.callerName) == "" && Trim(f.relation) == "" && Trim(f.phoneNumber) == ""
    ensures f.relation != "Agent"
  {
    TrimEmptyIff(f.officerName);
    TrimEmptyIff(f.vrn);
    TrimEmptyIff(f.ccelRef);
    TrimEmptyIff(f.businessName);
    TrimEmptyIff(f.addressLine);
    TrimEmptyIff(f.postcode);
    TrimEmptyIff(f.callerName);
    TrimEmptyIff(f.relation);
    TrimEmptyIff(f.phoneNumber);
  }

  /** A blank call still renders both notes, with "Security: N/A" and the dash for the brief. */
  lemma BlankCallNotes(f: Form)
    requires CallFieldsBlank(f)
    ensures SecurityLine(f) == "Security: N/A"
    ensures EndsWith(CcelNote(f), "\n" + CcelBriefHeader + "\n" + NoBrief)
    ensures EndsWith(SapNote(f), "\n" + SapBriefHeader + "\n" + NoBrief)
    ensures Disclaimer + "\n\n" <= CcelNote(f) && Disclaimer + "\n\n" <= SapNote(f)
  {
    TrimFixed("");
    SecurityLineUnset(f);
  }
}
