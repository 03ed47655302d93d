/**
 * The three readings that the e-mail channel takes of a reply's text
 * (main.py:414-446): the workflow id in a `[WF-<digits>]` token, the
 * approve/reject intent from keywords, and the free-text reason after
 * `reason:`. Each regular expression of the source is modelled as a
 * match-at-position function plus a leftmost search, which is how
 * `re.search` behaves.
 */
module EmailParsing {
  import opened Values
  import opened Text

  /** `\d`, restricted to ASCII digits. */
  predicate IsDigit(c: char)
  {
    '0' <= c <= '9'
  }

  // ---------------------------------------------------------------------------
  // Workflow id: re.search(r'\[(WF-\d+)\]', text).group(1)
  // ---------------------------------------------------------------------------

  /** Reference reading: `\[WF-\d+\]` occurs at position `i` with exactly `n` digits. */
  predicate BracketedIdAt(s: string, i: nat, n: nat)
  {
    && 0 < n
    && i + n + 5 <= |s|
    && s[i..i + 4] == "[WF-"
    && (forall k :: i + 4 <= k < i + 4 + n ==> IsDigit(s[k]))
    && s[i + 4 + n] == ']'
  }

  /** Length of the longest run of digits starting at `j` (what greedy `\d+` consumes). */
  function DigitRun(s: string, j: nat): (n: nat)
    requires j <= |s|
    ensures j + n <= |s|
    ensures forall k :: j <= k < j + n ==> IsDigit(s[k])
    ensures j + n < |s| ==> !IsDigit(s[j + n])
    decreases |s| - j
  {
    if j < |s| && IsDigit(s[j]) then 1 + DigitRun(s, j + 1) else 0
  }

  /** Group 1 of the id pattern when the match starts at `i`, if it does. */
  function TokenAt(s: string, i: nat): Option<string>
  {
    if i + 4 <= |s| && s[i..i + 4] == "[WF-" then
      var n := DigitRun(s, i + 4);
      if 0 < n && i + 4 + n < |s| && s[i + 4 + n] == ']' then Some(s[i + 1..i + 4 + n]) else None
    else
      None
  }

  /** The greedy digit run is the only way the pattern can match at `i`. */
  lemma TokenAtMatches(s: string, i: nat)
    ensures TokenAt(s, i).Some? <==> exists n: nat :: BracketedIdAt(s, i, n)
    ensures forall n: nat :: BracketedIdAt(s, i, n) ==> TokenAt(s, i) == Some(s[i + 1..i + 4 + n])
  {
    if TokenAt(s, i).Some? {
      assert BracketedIdAt(s, i, DigitRun(s, i + 4));
    }
    forall n: nat | BracketedIdAt(s, i, n)
      ensures TokenAt(s, i) == Some(s[i + 1..i + 4 + n])
    {
    }
  }

  /** Leftmost position at or after `i` where the id pattern matches. */
  function FirstToken(s: string, i: nat): (r: Option<nat>)
    requires i <= |s|
    ensures r.Some? ==> i <= r.value < |s| && TokenAt(s, r.value).Some?
    ensures forall k :: i <= k < |s| && (r.None? || k < r.value) ==> TokenAt(s, k).None?
    decreases |s| - i
  {
    if i == |s| then None
    else if TokenAt(s, i).Some? then Some(i)
    else FirstToken(s, i + 1)
  }

  /** A token with none before it is the one the search returns. */
  lemma FirstTokenIs(s: string, p: nat)
    requires p < |s| && TokenAt(s, p).Some?
    requires forall k: nat :: k < p ==> TokenAt(s, k).None?
    ensures FirstToken(s, 0) == Some(p)
  {
  }

  /** The workflow id that `re.search` finds in the text (main.py:416-418). */
  function WorkflowIdIn(s: string): Option<string>
  {
    match FirstToken(s, 0)
    case None => None
    case Some(i) => TokenAt(s, i)
  }

  /** The id is found exactly when some `[WF-<digits>]` token occurs, and it is the leftmost one. */
  lemma {:induction false} WorkflowIdIsLeftmostToken(s: string)
    ensures WorkflowIdIn(s).None? <==> forall i: nat, n: nat :: !BracketedIdAt(s, i, n)
    ensures WorkflowIdIn(s).Some? ==>
      exists i: nat, n: nat ::
        && BracketedIdAt(s, i, n)
        && WorkflowIdIn(s).value == s[i + 1..i + 4 + n]
        && forall j: nat, m: nat :: j < i ==> !BracketedIdAt(s, j, m)
  {
    forall j: nat | j < |s| ensures TokenAt(s, j).Some? <==> exists n: nat :: BracketedIdAt(s, j, n) {
      TokenAtMatches(s, j);
    }
    match FirstToken(s, 0)
    case None =>
      forall i: nat, n: nat ensures !BracketedIdAt(s, i, n) {
        if i < |s| {
          TokenAtMatches(s, i);
        }
      }
    case Some(i) =>
      TokenAtMatches(s, i);
      var n: nat :| BracketedIdAt(s, i, n);
      assert WorkflowIdIn(s).value == s[i + 1..i + 4 + n];
      forall j: nat, m: nat | j < i ensures !BracketedIdAt(s, j, m) {
        TokenAtMatches(s, j);
      }
  }

  /** Every id found has the shape `WF-<digits>`. */
  lemma WorkflowIdShape(s: string)
    requires WorkflowIdIn(s).Some?
    ensures |WorkflowIdIn(s).value| > 3
    ensures WorkflowIdIn(s).value[..3] == "WF-"
    ensures forall k :: 3 <= k < |WorkflowIdIn(s).value| ==> IsDigit(WorkflowIdIn(s).value[k])
  {
    var i := FirstToken(s, 0).value;
    var id := WorkflowIdIn(s).value;
    var n := DigitRun(s, i + 4);
    assert id == s[i + 1..i + 4 + n];
    assert id[..3] == s[i..i + 4][1..];
    forall k | 3 <= k < |id| ensures IsDigit(id[k]) {
      assert id[k] == s[i + 1 + k];
    }
  }

  // ---------------------------------------------------------------------------
  // Intent: keyword tests on email_content.lower() (main.py:429-436)
  // ---------------------------------------------------------------------------

  /** `"approve" in t or "yes" in t` for the lower-cased text. */
  predicate ApprovalSignal(text: string)
  {
    Contains(Lower(text), "approve") || Contains(Lower(text), "yes")
  }

  /** `"reject" in t or "no" in t` for the lower-cased text; "no" also occurs inside "not". */
  predicate RejectionSignal(text: string)
  {
    Contains(Lower(text), "reject") || Contains(Lower(text), "no")
  }

  /**
   * The recorded decision: `Some(true)` approves, `Some(false)` rejects,
   * `None` is the "no clear approval or rejection" exit. The value stored
   * is the approval signal alone, so a text with both signals approves.
   */
  function Intent(text: string): Option<bool>
  {
    var approved := ApprovalSignal(text);
    if approved || RejectionSignal(text) then Some(approved) else None
  }

  /** The three outcomes of the keyword test, each as a condition on the signals. */
  lemma IntentCases(text: string)
    ensures Intent(text) == Some(true) <==> ApprovalSignal(text)
    ensures Intent(text) == Some(false) <==> !ApprovalSignal(text) && RejectionSignal(text)
    ensures Intent(text) == None <==> !ApprovalSignal(text) && !RejectionSignal(text)
  {
  }

  /** A refusal that names the approve keyword still reads as an approval. */
  lemma NegatedApprovalApproves()
    ensures Intent("I do not approve this") == Some(true)
  {
    var t := Lower("I do not approve this");
    assert t[9..16] == "approve";
    assert MatchAt(t, "approve", 9);
  }

  /** "no" inside "not" is a rejection signal on its own. */
  lemma NotReadsAsNo()
    ensures Intent("I do not think so") == Some(false)
  {
    var t := Lower("I do not think so");
    assert t == "i do not think so";
    assert MatchAt(t, "no", 5);
    FirstCharAbsent(t, "approve");
    FirstCharAbsent(t, "yes");
  }

  // ---------------------------------------------------------------------------
  // Reason: re.search(r'reason:\s*(.+)', text, re.IGNORECASE).group(1)
  // ---------------------------------------------------------------------------

  /**
   * A text character matches a lower-case pattern character under
   * `re.IGNORECASE`: by ASCII case, and U+017F (long s) also stands for 's'.
   */
  predicate FoldEq(c: char, p: char)
  {
    LowerChar(c) == p || (p == 's' && c == '\U{17F}')
  }

  /** `reason:` matches, ignoring case, at position `i`. */
  predicate MarkerAt(s: string, i: nat)
  {
    && i + 7 <= |s|
    && FoldEq(s[i], 'r') && FoldEq(s[i + 1], 'e') && FoldEq(s[i + 2], 'a') && FoldEq(s[i + 3], 's')
    && FoldEq(s[i + 4], 'o') && FoldEq(s[i + 5], 'n') && FoldEq(s[i + 6], ':')
  }

  /** End of the whitespace run starting at `j` (what greedy `\s*` consumes first). */
  function SpaceEnd(s: string, j: nat): (e: nat)
    requires j <= |s|
    ensures j <= e <= |s|
    ensures forall k :: j <= k < e ==> IsSpace(s[k])
    ensures e < |s| ==> !IsSpace(s[e])
    decreases |s| - j
  {
    if j < |s| && IsSpace(s[j]) then SpaceEnd(s, j + 1) else j
  }

  /** End of the line containing position `j`: the next newline or the end of the text. */
  function LineEnd(s: string, j: nat): (e: nat)
    requires j <= |s|
    ensures j <= e <= |s|
    ensures forall k :: j <= k < e ==> s[k] != '\n'
    ensures e < |s| ==> s[e] == '\n'
    decreases |s| - j
  {
    if j < |s| && s[j] != '\n' then LineEnd(s, j + 1) else j
  }

  /**
   * Where `(.+)` starts after `\s*` gives back characters: the last position
   * `q` in `lo..hi` holding a character other than a newline (`.` does not
   * match a newline). Backtracking tries `hi` first and moves left.
   */
  function GroupStart(s: string, lo: nat, hi: nat): (q: Option<nat>)
    requires lo <= hi <= |s|
    ensures q.Some? ==> lo <= q.value <= hi && q.value < |s| && s[q.value] != '\n'
    ensures q.Some? ==> forall k :: q.value < k <= hi && k < |s| ==> s[k] == '\n'
    ensures q.None? ==> forall k :: lo <= k <= hi && k < |s| ==> s[k] == '\n'
    decreases hi - lo
  {
    if hi < |s| && s[hi] != '\n' then Some(hi)
    else if hi == lo then None
    else GroupStart(s, lo, hi - 1)
  }

  /** Group 1 of the reason pattern when the match starts at `i`, if it does. */
  function ReasonAt(s: string, i: nat): Option<string>
  {
    if !MarkerAt(s, i) then None
    else
      match GroupStart(s, i + 7, SpaceEnd(s, i + 7))
      case None => None
      case Some(q) => Some(s[q..LineEnd(s, q)])
  }

  /** Leftmost position at or after `i` where the reason pattern matches. */
  function FirstReason(s: string, i: nat): (r: Option<nat>)
    requires i <= |s|
    ensures r.Some? ==> i <= r.value < |s| && ReasonAt(s, r.value).Some?
    ensures forall k :: i <= k < |s| && (r.None? || k < r.value) ==> ReasonAt(s, k).None?
    decreases |s| - i
  {
    if i == |s| then None
    else if ReasonAt(s, i).Some? then Some(i)
    else FirstReason(s, i + 1)
  }

  const NoReason: string := "No reason provided"

  /** The reason recorded for an e-mail decision (main.py:445-446). */
  function ReasonIn(s: string): string
  {
    match FirstReason(s, 0)
    case None => NoReason
    case Some(i) => ReasonAt(s, i).value
  }

  /**
   * A captured reason is one non-empty piece of a single line: after the
   * marker and the spaces that follow it, up to (not including) the next
   * newline. Without a match the placeholder is used.
   */
  lemma ReasonIsOneLine(s: string)
    ensures FirstReason(s, 0).Some? ==> exists i: nat :: i < |s| && MarkerAt(s, i) && ReasonAt(s, i) == Some(ReasonIn(s))
    ensures FirstReason(s, 0).Some? ==> 0 < |ReasonIn(s)| && '\n' !in ReasonIn(s)
    ensures (forall i: nat :: i < |s| ==> !MarkerAt(s, i)) ==> ReasonIn(s) == NoReason
  {
    match FirstReason(s, 0)
    case None =>
    case Some(i) =>
      var q := GroupStart(s, i + 7, SpaceEnd(s, i + 7)).value;
      var e := LineEnd(s, q);
      assert ReasonIn(s) == s[q..e];
      forall k | 0 <= k < e - q ensures s[q..e][k] != '\n' {
        assert s[q..e][k] == s[q + k];
      }
  }

  /** In the usual case the reason starts at the first non-space character after the marker. */
  lemma ReasonAfterSpaces(s: string, i: nat)
    requires MarkerAt(s, i) && SpaceEnd(s, i + 7) < |s|
    ensures ReasonAt(s, i) == Some(s[SpaceEnd(s, i + 7)..LineEnd(s, SpaceEnd(s, i + 7))])
  {
  }

  /** The one-line reply "I approve this invoice. Reason: looks fine. [WF-123]", the example e-mail of this model. */
  const ExampleEmail: string := ExampleHead + ExampleReasonLine

  /** The example up to and including the blank after its `Reason:` marker. */
  const ExampleHead: string := "I approve this invoice. Reason: "

  /** The rest of the example's only line. */
  const ExampleReasonLine: string := "looks fine. [WF-123]"

  lemma ExampleMarkerAt24()
    ensures MarkerAt(ExampleEmail, 24)
  {
  }

  lemma ExampleNoEarlierMarker()
    ensures forall k: nat :: k < 24 ==> !MarkerAt(ExampleEmail, k)
  {
    var s := ExampleEmail;
    var head := s[..30];
    assert head == "I approve this invoice. Reason";
    assert ':' !in head;
    forall k: nat | k < 24 ensures !MarkerAt(s, k) {
      assert s[k + 6] == head[k + 6];
    }
  }

  lemma ExampleTail()
    ensures ExampleEmail[32..] == "looks fine. [WF-123]"
    ensures forall k :: 32 <= k < |ExampleEmail| ==> ExampleEmail[k] != '\n'
  {
    assert |ExampleHead| == 32;
    assert ExampleEmail[32..] == ExampleReasonLine;
    assert '\n' !in ExampleReasonLine;
    forall k | 32 <= k < |ExampleEmail| ensures ExampleEmail[k] != '\n' {
      assert ExampleEmail[k] == ExampleReasonLine[k - 32];
    }
  }

  lemma ExampleLineEnds()
    ensures SpaceEnd(ExampleEmail, 31) == 32
    ensures LineEnd(ExampleEmail, 32) == |ExampleEmail|
    ensures ExampleEmail[32..] == "looks fine. [WF-123]"
  {
    var s := ExampleEmail;
    assert s[31] == ' ' && s[32] == 'l';
    assert SpaceEnd(s, 32) == 32;
    ExampleTail();
  }

  /** The reason recorded for the example e-mail runs to the end of its line. */
  lemma ReasonOfExample()
    ensures ReasonIn(ExampleEmail) == "looks fine. [WF-123]"
  {
    ExampleMarkerAt24();
    ExampleNoEarlierMarker();
    ExampleLineEnds();
    ReasonAfterSpaces(ExampleEmail, 24);
    assert FirstReason(ExampleEmail, 0) == Some(24);
  }

  /** The example e-mail reads as an approval. */
  lemma IntentOfExample()
    ensures Intent(ExampleEmail) == Some(true)
  {
    var s := ExampleEmail;
    var head := s[..30];
    assert head == "I approve this invoice. Reason";
    forall k | 0 <= k < 7 ensures s[2..9][k] == "approve"[k] {
      assert s[2 + k] == head[2 + k];
    }
    assert s[2..9] == "approve";
    LowerKeepsMatch(s, "approve", 2);
  }

  lemma ExampleNoEarlierToken()
    ensures forall k: nat :: k < 44 ==> TokenAt(ExampleEmail, k).None?
  {
    var s := ExampleEmail;
    var head := s[..44];
    assert head == "I approve this invoice. Reason: looks fine. ";
    assert '[' !in head;
    forall k: nat | k < 44 ensures TokenAt(s, k).None? {
      assert s[k] == head[k];
      if k + 4 <= |s| {
        assert s[k..k + 4][0] == s[k];
      }
    }
  }

  lemma ExampleTokenAt44()
    ensures TokenAt(ExampleEmail, 44) == Some("WF-123")
  {
    var s := ExampleEmail;
    var tail := s[44..];
    assert tail == "[WF-123]";
    assert s[44..48] == tail[..4] == "[WF-";
    assert DigitRun(s, 51) == 0;
    assert DigitRun(s, 50) == 1;
    assert DigitRun(s, 49) == 2;
    assert DigitRun(s, 48) == 3;
    assert s[45..51] == tail[1..7] == "WF-123";
  }

  /** The workflow id of the same example e-mail. */
  lemma WorkflowIdOfExample()
    ensures WorkflowIdIn(ExampleEmail) == Some("WF-123")
  {
    ExampleNoEarlierToken();
    ExampleTokenAt44();
    FirstTokenIs(ExampleEmail, 44);
  }
}
