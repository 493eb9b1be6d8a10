/** The procedure-suggestion endpoint of the symptom chatbot: the request
    check, the query sanitiser for the text-search fallback, the choice
    between vector-search and fallback results, and the keyword rule that
    attaches a reason to every suggested procedure. */
module ChatbotProcedures {
  import opened Common

  const BadRequest: nat := 400
  const ServerError: nat := 500

  /** `if (!symptoms)`: absent or empty symptoms are rejected. */
  function CheckSymptoms(symptoms: Option<string>): (r: Result<string, nat>)
    ensures r.Err? <==> symptoms.None? || symptoms.value == ""
    ensures r.Err? ==> r.error == BadRequest
    ensures r.Ok? ==> r.value == symptoms.value && |r.value| > 0
  {
    if symptoms.None? || symptoms.value == "" then Err(BadRequest) else Ok(symptoms.value)
  }

  // ---------------------------------------------------------------------
  // Query sanitiser: `symptoms.replace(/[^\w\s]/g, ' ').trim()`
  // ---------------------------------------------------------------------

  /** `\w`: ASCII letters, digits and the underscore. */
  predicate IsWordChar(c: char)
  {
    'a' <= c <= 'z' || 'A' <= c <= 'Z' || '0' <= c <= '9' || c == '_'
  }

  /** `\s`, and the characters `trim` removes: the ECMAScript white space and
      line terminators. */
  predicate IsWhitespace(c: char)
  {
    c == ' ' || c == '\t' || c == '\n' || c == '\r' || c == '\U{000B}' || c == '\U{000C}'
    || c == '\U{00A0}' || c == '\U{1680}' || '\U{2000}' <= c <= '\U{200A}'
    || c == '\U{2028}' || c == '\U{2029}' || c == '\U{202F}' || c == '\U{205F}'
    || c == '\U{3000}' || c == '\U{FEFF}'
  }

  predicate IsKept(c: char)
  {
    IsWordChar(c) || IsWhitespace(c)
  }

  /** The global replace: every character outside `\w` and `\s` becomes one
      space, every other character stays where it was. */
  function ReplaceNonWord(s: string): (r: string)
    ensures |r| == |s|
    ensures forall i :: 0 <= i < |s| && IsKept(s[i]) ==> r[i] == s[i]
    ensures forall i :: 0 <= i < |s| && !IsKept(s[i]) ==> r[i] == ' '
  {
    seq(|s|, i requires 0 <= i < |s| => if IsKept(s[i]) then s[i] else ' ')
  }

  /** `trimStart`: the suffix that starts at the first non-white character. */
  function TrimStart(s: string): (r: string)
    ensures |r| <= |s| && r == s[|s| - |r|..]
    ensures forall k :: 0 <= k < |s| - |r| ==> IsWhitespace(s[k])
    ensures r == [] || !IsWhitespace(r[0])
  {
    if s != [] && IsWhitespace(s[0]) then TrimStart(s[1..]) else s
  }

  /** `trimEnd`: the prefix that ends at the last non-white character. */
  function TrimEnd(s: string): (r: string)
    ensures |r| <= |s| && r == s[..|r|]
    ensures forall k :: |r| <= k < |s| ==> IsWhitespace(s[k])
    ensures r == [] || !IsWhitespace(r[|r| - 1])
  {
    if s != [] && IsWhitespace(s[|s| - 1]) then TrimEnd(s[..|s| - 1]) else s
  }

  function Trim(s: string): string
  {
    TrimEnd(TrimStart(s))
  }

  /** Where `trim` cuts the front: the number of leading white-space characters. */
  function TrimOffset(s: string): (i: nat)
    ensures i <= |s|
  {
    |s| - |TrimStart(s)|
  }

  lemma {:induction false} TrimIsSlice(s: string)
    ensures TrimOffset(s) + |Trim(s)| <= |s|
    ensures Trim(s) == s[TrimOffset(s)..TrimOffset(s) + |Trim(s)|]
  {
    var t := TrimStart(s);
    assert t == s[TrimOffset(s)..];
  }

  lemma {:induction false} TrimKeepsOnlyWhitespaceBehind(s: string)
    ensures forall k :: TrimOffset(s) + |Trim(s)| <= k < |s| ==> IsWhitespace(s[k])
  {
    var t := TrimStart(s);
    WhitespaceBehindSuffix(s, TrimOffset(s), TrimEnd(t));
  }

  /** White space behind a prefix `r` of the suffix `s[i..]` is white space of `s`. */
  lemma WhitespaceBehindSuffix(s: string, i: nat, r: string)
    requires i <= |s| && |r| <= |s| - i
    requires forall m :: |r| <= m < |s| - i ==> IsWhitespace(s[i..][m])
    ensures forall k :: i + |r| <= k < |s| ==> IsWhitespace(s[k])
  {
    forall k | i + |r| <= k < |s|
      ensures IsWhitespace(s[k])
    {
      assert s[k] == s[i..][k - i];
    }
  }

  /** `trim` cuts white space from both ends and nothing else: the result is
      the slice of the input between its leading and trailing white space,
      and neither of its ends is white space. */
  lemma {:induction false} TrimCutsOnlyOuterWhitespace(s: string)
    ensures var i := TrimOffset(s); var j := i + |Trim(s)|;
      j <= |s| && Trim(s) == s[i..j]
      && (forall k :: 0 <= k < i ==> IsWhitespace(s[k]))
      && (forall k :: j <= k < |s| ==> IsWhitespace(s[k]))
    ensures Trim(s) == [] || (!IsWhitespace(Trim(s)[0]) && !IsWhitespace(Trim(s)[|Trim(s)| - 1]))
  {
    TrimIsSlice(s);
    TrimKeepsOnlyWhitespaceBehind(s);
    TrimLeavesNoOuterWhitespace(s);
  }

  lemma {:induction false} TrimLeavesNoOuterWhitespace(s: string)
    ensures Trim(s) == [] || (!IsWhitespace(Trim(s)[0]) && !IsWhitespace(Trim(s)[|Trim(s)| - 1]))
  {
    var t := TrimStart(s);
    if Trim(s) != [] {
      assert Trim(s)[0] == t[0];
    }
  }

  function Sanitize(symptoms: string): string
  {
    Trim(ReplaceNonWord(symptoms))
  }

  /** The sanitised query holds only word and white-space characters, and
      neither starts nor ends with white space. */
  lemma {:induction false} SanitizedQueryIsClean(symptoms: string)
    ensures forall k :: 0 <= k < |Sanitize(symptoms)| ==> IsKept(Sanitize(symptoms)[k])
    ensures Sanitize(symptoms) == [] || (!IsWhitespace(Sanitize(symptoms)[0])
      && !IsWhitespace(Sanitize(symptoms)[|Sanitize(symptoms)| - 1]))
    ensures |Sanitize(symptoms)| <= |symptoms|
  {
    var replaced := ReplaceNonWord(symptoms);
    TrimIsSlice(replaced);
    SliceOfKeptIsKept(replaced, TrimOffset(replaced), TrimOffset(replaced) + |Trim(replaced)|);
    TrimLeavesNoOuterWhitespace(replaced);
  }

  /** A slice of a string of word and white-space characters holds only such characters. */
  lemma SliceOfKeptIsKept(s: string, i: nat, j: nat)
    requires i <= j <= |s|
    requires forall k :: 0 <= k < |s| ==> IsKept(s[k])
    ensures forall k :: 0 <= k < j - i ==> IsKept(s[i..j][k])
  {
    forall k | 0 <= k < j - i
      ensures IsKept(s[i..j][k])
    {
      assert s[i..j][k] == s[i + k];
    }
  }

  /** Sanitising an already sanitised query changes nothing. */
  lemma {:induction false} SanitizeIsIdempotent(symptoms: string)
    ensures Sanitize(Sanitize(symptoms)) == Sanitize(symptoms)
  {
    var q := Sanitize(symptoms);
    SanitizedQueryIsClean(symptoms);
    assert ReplaceNonWord(q) == q;
    assert TrimStart(q) == q;
    assert TrimEnd(q) == q;
  }

  // ---------------------------------------------------------------------
  // Vector search or text-search fallback
  // ---------------------------------------------------------------------

  /** A row of `procedures`. */
  datatype ProcedureRow = ProcedureRow(id: string, name: string, description: string)

  /** The retrieval step. The remote answers are inputs: `procedureIds` is
      None when the vector search throws; a query answer is None when the
      query reports an error (`data || []` already applied otherwise).
      `allRows` and `allRowsRetry` answer the last-resort query for all
      procedures, which runs a second time when its first run fails inside
      the text-search `try`. The result is Err(500) when the error escapes. */
  method RetrieveProcedures(
    procedureIds: Option<seq<string>>, vectorRows: Option<seq<ProcedureRow>>,
    textRows: Option<seq<ProcedureRow>>, allRows: Option<seq<ProcedureRow>>,
    allRowsRetry: Option<seq<ProcedureRow>>)
    returns (procedures: Result<seq<ProcedureRow>, nat>, usedTextSearch: bool)
    ensures !usedTextSearch <==> procedureIds.Some? && |procedureIds.value| > 0 && vectorRows.Some? && |vectorRows.value| > 0
    ensures !usedTextSearch ==> procedures == Ok(vectorRows.value)
    ensures usedTextSearch && textRows.Some? ==> procedures == Ok(textRows.value)
    ensures usedTextSearch && textRows.None? && allRows.Some? ==> procedures == Ok(allRows.value)
    ensures usedTextSearch && textRows.None? && allRows.None? && allRowsRetry.Some? ==> procedures == Ok(allRowsRetry.value)
    ensures procedures.Err? <==> usedTextSearch && textRows.None? && allRows.None? && allRowsRetry.None?
    ensures procedures.Err? ==> procedures.error == ServerError
  {
    var found: seq<ProcedureRow> := [];
    var vectorSearchSuccessful := false;
    if procedureIds.Some? && |procedureIds.value| > 0 {
      if vectorRows.Some? {
        found := vectorRows.value;
        vectorSearchSuccessful := true;
      }
    }
    usedTextSearch := !vectorSearchSuccessful || |found| == 0;
    if usedTextSearch {
      if textRows.Some? {
        found := textRows.value;
      } else if allRows.Some? {
        found := allRows.value;
      } else if allRowsRetry.Some? {
        found := allRowsRetry.value;
      } else {
        return Err(ServerError), usedTextSearch;
      }
    }
    procedures := Ok(found);
  }

  // ---------------------------------------------------------------------
  // Reasons
  // ---------------------------------------------------------------------

  /** `toLowerCase` on the ASCII letters. */
  function LowerChar(c: char): (l: char)
    ensures 'A' <= c <= 'Z' ==> l as int == c as int + 32
    ensures !('A' <= c <= 'Z') ==> l == c
  {
    if 'A' <= c <= 'Z' then (c as int + 32) as char else c
  }

  function ToLower(s: string): (r: string)
    ensures |r| == |s| && forall i :: 0 <= i < |s| ==> r[i] == LowerChar(s[i])
  {
    seq(|s|, i requires 0 <= i < |s| => LowerChar(s[i]))
  }

  /** `toUpperCase` on the ASCII letters, used to state case-insensitivity. */
  function ToUpper(s: string): (r: string)
    ensures |r| == |s|
  {
    seq(|s|, i requires 0 <= i < |s| => if 'a' <= s[i] <= 'z' then (s[i] as int - 32) as char else s[i])
  }

  /** `word` occurs in `text` starting at index `i`. */
  predicate OccursAt(text: string, word: string, i: int)
  {
    0 <= i <= |text| - |word| && text[i..i + |word|] == word
  }

  /** `text.includes(word)`. */
  predicate Includes(text: string, word: string)
  {
    exists i :: 0 <= i <= |text| - |word| && OccursAt(text, word, i)
  }

  const ImagingReason: string := "Imaging tests can help identify the source of your pain and determine the best treatment approach."
  const ConsultationReason: string := "A specialist consultation can provide a professional assessment of your pain and recommend appropriate treatments."
  const TherapyReason: string := "Physical therapy can help manage pain and improve mobility through targeted exercises and techniques."
  const ArthroscopyReason: string := "Knee arthroscopy is a minimally invasive procedure that can diagnose and treat various knee conditions."
  const ReplacementReason: string := "Knee replacement surgery may be recommended for severe knee pain that doesn't respond to other treatments."
  const BloodTestReason: string := "Blood tests can help identify the cause of your fever by checking for infections or other conditions."
  const DefaultReason: string := "This procedure may be relevant based on your symptoms. A healthcare provider can determine if it's appropriate for your specific situation."

  /** One row of the reason table: the reason given when the lower-cased
      procedure name includes one of the keywords. */
  datatype Rule = Rule(nameKeywords: seq<string>, reason: string)

  /** The rules consulted when the lower-cased symptoms include the keyword. */
  datatype Branch = Branch(symptomKeyword: string, rules: seq<Rule>)

  /** The reason rule as a decision table, in priority order. */
  const ReasonTable: seq<Branch> := [
    Branch("pain", [Rule(["x-ray", "mri"], ImagingReason), Rule(["consultation"], ConsultationReason), Rule(["therapy"], TherapyReason)]),
    Branch("knee", [Rule(["arthroscopy"], ArthroscopyReason), Rule(["replacement"], ReplacementReason)]),
    Branch("fever", [Rule(["blood"], BloodTestReason)])
  ]

  /** `text` includes at least one of `words`. */
  predicate IncludesAny(text: string, words: seq<string>)
  {
    words != [] && (Includes(text, words[0]) || IncludesAny(text, words[1..]))
  }

  /** The reason of the first rule that matches `name`, or "" when none does. */
  function FirstMatchingRule(name: string, rules: seq<Rule>): (reason: string)
    ensures reason == "" || exists k :: 0 <= k < |rules| && reason == rules[k].reason
  {
    if rules == [] then ""
    else if IncludesAny(name, rules[0].nameKeywords) then rules[0].reason
    else FirstMatchingRule(name, rules[1..])
  }

  /** The first branch whose keyword `symptoms` includes decides the reason;
      the default reason when no branch applies. */
  function ReasonFromTable(symptoms: string, name: string, table: seq<Branch>): string
  {
    if table == [] then DefaultReason
    else if Includes(symptoms, table[0].symptomKeyword) then FirstMatchingRule(name, table[0].rules)
    else ReasonFromTable(symptoms, name, table[1..])
  }

  /** The reason the endpoint gives for suggesting `name` against `symptoms`. */
  function Reason(symptoms: string, name: string): string
  {
    ReasonFromTable(ToLower(symptoms), ToLower(name), ReasonTable)
  }

  lemma PainRulesAsChain(n: string)
    ensures FirstMatchingRule(n, ReasonTable[0].rules) ==
      if Includes(n, "x-ray") || Includes(n, "mri") then ImagingReason
      else if Includes(n, "consultation") then ConsultationReason
      else if Includes(n, "therapy") then TherapyReason
      else ""
  {
    var pain := ReasonTable[0].rules;
    assert pain[0] == Rule(["x-ray", "mri"], ImagingReason);
    assert pain[1..][0] == Rule(["consultation"], ConsultationReason);
    assert pain[1..][1..][0] == Rule(["therapy"], TherapyReason);
    assert pain[1..][1..][1..] == [];
    var keywords := pain[0].nameKeywords;
    assert keywords[1..] == ["mri"] && keywords[1..][1..] == [];
    assert IncludesAny(n, keywords[1..]) <==> Includes(n, "mri");
    assert IncludesAny(n, keywords) <==> Includes(n, "x-ray") || Includes(n, "mri");
    assert IncludesAny(n, pain[1..][0].nameKeywords) <==> Includes(n, "consultation") by {
      assert pain[1..][0].nameKeywords[1..] == [];
    }
    assert IncludesAny(n, pain[1..][1..][0].nameKeywords) <==> Includes(n, "therapy") by {
      assert pain[1..][1..][0].nameKeywords[1..] == [];
    }
    assert FirstMatchingRule(n, pain[1..][1..]) == if Includes(n, "therapy") then TherapyReason else "";
  }

  lemma KneeRulesAsChain(n: string)
    ensures FirstMatchingRule(n, ReasonTable[1].rules) ==
      if Includes(n, "arthroscopy") then ArthroscopyReason
      else if Includes(n, "replacement") then ReplacementReason
      else ""
  {
    var knee := ReasonTable[1].rules;
    assert knee[0] == Rule(["arthroscopy"], ArthroscopyReason);
    assert knee[1..][0] == Rule(["replacement"], ReplacementReason);
    assert knee[1..][1..] == [];
    assert IncludesAny(n, knee[0].nameKeywords) <==> Includes(n, "arthroscopy") by {
      assert knee[0].nameKeywords[1..] == [];
    }
    assert IncludesAny(n, knee[1..][0].nameKeywords) <==> Includes(n, "replacement") by {
      assert knee[1..][0].nameKeywords[1..] == [];
    }
  }

  lemma FeverRulesAsChain(n: string)
    ensures FirstMatchingRule(n, ReasonTable[2].rules) == if Includes(n, "blood") then BloodTestReason else ""
  {
    var fever := ReasonTable[2].rules;
    assert fever[0] == Rule(["blood"], BloodTestReason);
    assert fever[1..] == [];
    assert IncludesAny(n, fever[0].nameKeywords) <==> Includes(n, "blood") by {
      assert fever[0].nameKeywords[1..] == [];
    }
  }

  /** The table read as the chain of tests it encodes. */
  lemma ReasonTableAsChain(s: string, n: string)
    ensures ReasonFromTable(s, n, ReasonTable) ==
      if Includes(s, "pain") then
        if Includes(n, "x-ray") || Includes(n, "mri") then ImagingReason
        else if Includes(n, "consultation") then ConsultationReason
        else if Includes(n, "therapy") then TherapyReason
        else ""
      else if Includes(s, "knee") then
        if Includes(n, "arthroscopy") then ArthroscopyReason
        else if Includes(n, "replacement") then ReplacementReason
        else ""
      else if Includes(s, "fever") then
        if Includes(n, "blood") then BloodTestReason else ""
      else DefaultReason
  {
    TableRowsInOrder(s, n);
    PainRulesAsChain(n);
    KneeRulesAsChain(n);
    FeverRulesAsChain(n);
  }

  /** The table consults "pain", then "knee", then "fever", then gives the default. */
  lemma TableRowsInOrder(s: string, n: string)
    ensures ReasonFromTable(s, n, ReasonTable) ==
      if Includes(s, "pain") then FirstMatchingRule(n, ReasonTable[0].rules)
      else if Includes(s, "knee") then FirstMatchingRule(n, ReasonTable[1].rules)
      else if Includes(s, "fever") then FirstMatchingRule(n, ReasonTable[2].rules)
      else DefaultReason
  {
    var t := ReasonTable;
    var last := t[1..][1..];
    assert last[0] == t[2] && last[0].symptomKeyword == "fever" && last[1..] == [];
    assert ReasonFromTable(s, n, last) == if Includes(s, "fever") then FirstMatchingRule(n, t[2].rules) else DefaultReason;
    assert t[1..][0] == t[1] && t[1].symptomKeyword == "knee";
    assert ReasonFromTable(s, n, t[1..]) ==
      if Includes(s, "knee") then FirstMatchingRule(n, t[1].rules) else ReasonFromTable(s, n, last);
    assert t[0].symptomKeyword == "pain";
  }

  /** The `let reason` chain of the endpoint, one procedure at a time. */
  method AssignReason(symptoms: string, procedureName: string) returns (reason: string)
    ensures reason == Reason(symptoms, procedureName)
  {
    var s := ToLower(symptoms);
    var name := ToLower(procedureName);
    ReasonTableAsChain(s, name);
    reason := "";
    if Includes(s, "pain") {
      if Includes(name, "x-ray") || Includes(name, "mri") {
        reason := ImagingReason;
      } else if Includes(name, "consultation") {
        reason := ConsultationReason;
      } else if Includes(name, "therapy") {
        reason := TherapyReason;
      }
    } else if Includes(s, "knee") {
      if Includes(name, "arthroscopy") {
        reason := ArthroscopyReason;
      } else if Includes(name, "replacement") {
        reason := ReplacementReason;
      }
    } else if Includes(s, "fever") {
      if Includes(name, "blood") {
        reason := BloodTestReason;
      }
    } else {
      reason := DefaultReason;
    }
  }

  /** The default reason is given exactly when the symptoms name none of the
      keywords. */
  lemma DefaultReasonIffNoKeyword(symptoms: string, name: string)
    ensures Reason(symptoms, name) == DefaultReason
      <==> !Includes(ToLower(symptoms), "pain") && !Includes(ToLower(symptoms), "knee") && !Includes(ToLower(symptoms), "fever")
  {
    ReasonTableAsChain(ToLower(symptoms), ToLower(name));
  }

  /** "pain" outranks "knee", which outranks "fever": once a keyword matches,
      only its own reasons (or none) can be given. */
  lemma KeywordPriority(symptoms: string, name: string)
    ensures Includes(ToLower(symptoms), "pain") ==>
      Reason(symptoms, name) in {ImagingReason, ConsultationReason, TherapyReason, ""}
    ensures !Includes(ToLower(symptoms), "pain") && Includes(ToLower(symptoms), "knee") ==>
      Reason(symptoms, name) in {ArthroscopyReason, ReplacementReason, ""}
    ensures !Includes(ToLower(symptoms), "pain") && !Includes(ToLower(symptoms), "knee") && Includes(ToLower(symptoms), "fever") ==>
      Reason(symptoms, name) in {BloodTestReason, ""}
  {
    ReasonTableAsChain(ToLower(symptoms), ToLower(name));
  }

  /** Within the pain branch the name keywords are tried in order, and a name
      that matches none of them leaves the reason empty. */
  lemma PainBranchOrder(symptoms: string, name: string)
    requires Includes(ToLower(symptoms), "pain")
    ensures Includes(ToLower(name), "x-ray") || Includes(ToLower(name), "mri") ==> Reason(symptoms, name) == ImagingReason
    ensures !Includes(ToLower(name), "x-ray") && !Includes(ToLower(name), "mri") && Includes(ToLower(name), "consultation")
      ==> Reason(symptoms, name) == ConsultationReason
    ensures (!Includes(ToLower(name), "x-ray") && !Includes(ToLower(name), "mri") && !Includes(ToLower(name), "consultation")
             && Includes(ToLower(name), "therapy"))
      ==> Reason(symptoms, name) == TherapyReason
    ensures Reason(symptoms, name) == "" <==>
      (!Includes(ToLower(name), "x-ray") && !Includes(ToLower(name), "mri")
        && !Includes(ToLower(name), "consultation") && !Includes(ToLower(name), "therapy"))
  {
    ReasonTableAsChain(ToLower(symptoms), ToLower(name));
  }

  /** Lower-casing an upper-cased string gives the lower-cased original. */
  lemma {:induction false} LowerOfUpper(s: string)
    ensures ToLower(ToUpper(s)) == ToLower(s)
  {
    forall i | 0 <= i < |s|
      ensures ToLower(ToUpper(s))[i] == ToLower(s)[i]
    {
    }
  }

  /** Matching ignores case: upper-casing the symptoms or the name never
      changes the reason. */
  lemma ReasonIgnoresCase(symptoms: string, name: string)
    ensures Reason(ToUpper(symptoms), ToUpper(name)) == Reason(symptoms, name)
  {
    LowerOfUpper(symptoms);
    LowerOfUpper(name);
  }

  /** A procedure with its cost figures, as the cost lookup returns it. */
  datatype ProcedureWithCost = ProcedureWithCost(
    id: string, name: string, description: string, minCost: real, maxCost: real,
    deductibleAmount: real, alternatives: seq<string>, hospital: Option<string>)

  /** `{ ...procedure, reason }`. */
  datatype Suggestion = Suggestion(procedure: ProcedureWithCost, reason: string)

  /** `proceduresWithCosts.map(...)`: one suggestion per procedure, in order,
      each the procedure unchanged with its reason attached. */
  method SuggestWithReasons(symptoms: string, procedures: seq<ProcedureWithCost>) returns (suggestions: seq<Suggestion>)
    ensures |suggestions| == |procedures|
    ensures forall i :: 0 <= i < |procedures| ==>
      suggestions[i] == Suggestion(procedures[i], Reason(symptoms, procedures[i].name))
  {
    suggestions := [];
    var i := 0;
    while i < |procedures|
      invariant 0 <= i <= |procedures| && |suggestions| == i
      invariant forall k :: 0 <= k < i ==> suggestions[k] == Suggestion(procedures[k], Reason(symptoms, procedures[k].name))
    {
      var reason := AssignReason(symptoms, procedures[i].name);
      suggestions := suggestions + [Suggestion(procedures[i], reason)];
      i := i + 1;
    }
  }
}
