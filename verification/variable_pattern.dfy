/**
 * The placeholder pattern of a command template, `\$\{(.*?)\}`, and the
 * semantics of `java.util.regex.Matcher.find` for it.
 *
 * A match at position `p` is `$`, `{`, then the shortest run of characters
 * other than line terminators (Java's `.` without DOTALL) that is followed by
 * `}`. `find` returns the leftmost match starting at or after its resume
 * position, and a successful `find` resumes after the closing `}`.
 */
module VariablePattern {
  import opened Wrappers

  /** The characters Java's `.` refuses when neither DOTALL nor UNIX_LINES is set. */
  predicate IsLineTerminator(c: char) {
    c == '\n' || c == '\r' || c == '\U{0085}' || c == '\U{2028}' || c == '\U{2029}'
  }

  /** No line terminator in s[from..to]. */
  predicate TerminatorFree(s: string, from: nat, to: nat)
    requires from <= to <= |s|
  {
    forall m :: from <= m < to ==> !IsLineTerminator(s[m])
  }

  /** The pattern can match s[p..j+1], with group 1 equal to s[p+2..j]. */
  predicate MatchAt(s: string, p: nat, j: nat) {
    p + 2 <= j < |s| && s[p] == '$' && s[p + 1] == '{' && s[j] == '}' &&
    TerminatorFree(s, p + 2, j)
  }

  /** The reluctant `.*?` picks the nearest closing brace that can end a match at p. */
  predicate LazyMatchAt(s: string, p: nat, j: nat) {
    MatchAt(s, p, j) && forall j' :: p + 2 <= j' < j ==> !MatchAt(s, p, j')
  }

  /** A match: `start` is the index of `$`, `close` the index of its `}`. */
  datatype Span = Span(start: nat, close: nat)

  /**
   * The first `}` at or after k, provided no line terminator comes before it;
   * None when a terminator or the end of the text comes first.
   */
  function ClosingBrace(s: string, k: nat): (r: Option<nat>)
    requires k <= |s|
    decreases |s| - k
    ensures r.Some? ==> k <= r.value < |s| && s[r.value] == '}' && TerminatorFree(s, k, r.value)
    ensures r.Some? ==> forall m :: k <= m < r.value ==> s[m] != '}'
    ensures r.None? ==> forall j :: k <= j < |s| && s[j] == '}' ==> !TerminatorFree(s, k, j)
  {
    if k == |s| then None
    else if s[k] == '}' then Some(k)
    else if IsLineTerminator(s[k]) then None
    else ClosingBrace(s, k + 1)
  }

  /**
   * `Matcher.find` resumed at `from`: the leftmost match starting at or after
   * `from`, with its lazily chosen closing brace; None when there is none.
   */
  function Find(s: string, from: nat): (r: Option<Span>)
    requires from <= |s|
    decreases |s| - from
    ensures r.Some? ==> from <= r.value.start && LazyMatchAt(s, r.value.start, r.value.close)
    ensures r.Some? ==> forall p, j :: from <= p < r.value.start ==> !MatchAt(s, p, j)
    ensures r.None? ==> forall p, j :: from <= p ==> !MatchAt(s, p, j)
  {
    if from + 2 > |s| then None
    else if s[from] == '$' && s[from + 1] == '{' then
      match ClosingBrace(s, from + 2)
      case Some(j) => Some(Span(from, j))
      case None => Find(s, from + 1)
    else Find(s, from + 1)
  }

  /**
   * The matches `while (matcher.find())` visits when the matcher starts at
   * `from`: in order, each one resuming after the previous closing brace.
   */
  function Spans(s: string, from: nat): (r: seq<Span>)
    requires from <= |s|
    decreases |s| - from
    ensures forall k :: 0 <= k < |r| ==> from <= r[k].start && LazyMatchAt(s, r[k].start, r[k].close)
    ensures forall k :: 0 <= k < |r| - 1 ==> r[k].close < r[k + 1].start
    ensures 3 * |r| <= |s| - from
  {
    match Find(s, from)
    case None => []
    case Some(m) => [m] + Spans(s, m.close + 1)
  }

  /** The group-1 texts of the matches visited from `from`, in order. */
  function Names(s: string, from: nat): seq<string>
    requires from <= |s|
    decreases |s| - from
  {
    match Find(s, from)
    case None => []
    case Some(m) => [s[m.start + 2 .. m.close]] + Names(s, m.close + 1)
  }

  /** There is one name per visited match: the text between its `${` and its `}`. */
  lemma {:induction false} NamesAreGroups(s: string, from: nat)
    requires from <= |s|
    decreases |s| - from
    ensures |Names(s, from)| == |Spans(s, from)|
    ensures forall k :: 0 <= k < |Spans(s, from)| ==>
              Names(s, from)[k] == s[Spans(s, from)[k].start + 2 .. Spans(s, from)[k].close]
  {
    match Find(s, from)
    case None =>
    case Some(m) =>
      NamesAreGroups(s, m.close + 1);
      var names, rest := Names(s, m.close + 1), Spans(s, m.close + 1);
      assert Names(s, from) == [s[m.start + 2 .. m.close]] + names;
      assert Spans(s, from) == [m] + rest;
  }

  /**
   * No match is missed: every position where the pattern can start lies
   * inside one of the visited matches (a `${` inside an earlier match is
   * consumed by it, since scanning resumes after the closing brace).
   */
  lemma {:induction false} SpansCoverEveryMatch(s: string, from: nat, p: nat, j: nat) returns (k: nat)
    requires from <= |s|
    requires from <= p && MatchAt(s, p, j)
    decreases |s| - from
    ensures k < |Spans(s, from)| && Spans(s, from)[k].start <= p <= Spans(s, from)[k].close
  {
    var f := Find(s, from);
    if f.None? {
      assert false;
    } else {
      var m := f.value;
      var rest := Spans(s, m.close + 1);
      assert Spans(s, from) == [m] + rest;
      if p <= m.close {
        assert m.start <= p;
        k := 0;
      } else {
        var i := SpansCoverEveryMatch(s, m.close + 1, p, j);
        k := i + 1;
      }
    }
  }

  /** Every name is free of `}` and of line terminators. */
  lemma NamesAreBraceFree(s: string, from: nat, k: nat)
    requires from <= |s| && k < |Names(s, from)|
    ensures '}' !in Names(s, from)[k]
    ensures forall c :: c in Names(s, from)[k] ==> !IsLineTerminator(c)
  {
    NamesAreGroups(s, from);
    var m := Spans(s, from)[k];
    var name := Names(s, from)[k];
    assert LazyMatchAt(s, m.start, m.close);
    forall i | 0 <= i < |name|
      ensures name[i] != '}' && !IsLineTerminator(name[i])
    {
      assert name[i] == s[m.start + 2 + i];
      assert !MatchAt(s, m.start, m.start + 2 + i);
    }
  }

  // Worked examples of the scan from the start of a template.

  /** Matches do not overlap: the first `}` closes the match begun at the first `${`. */
  lemma NestedOpeningIsPartOfName()
    ensures Names("${a${b}", 0) == ["a${b"]
  {
    var s := "${a${b}";
    assert ClosingBrace(s, 4) == Some(6);
    assert ClosingBrace(s, 2) == Some(6);
    assert Find(s, 0) == Some(Span(0, 6));
    assert Find(s, 7) == None;
    assert s[2..6] == "a${b";
  }

  /** `.*?` may match nothing, so `${}` names the empty variable. */
  lemma EmptyPlaceholderNamesEmptyVariable()
    ensures Names("${}", 0) == [""]
  {
    var s := "${}";
    assert Find(s, 0) == Some(Span(0, 2));
    assert Find(s, 3) == None;
    assert s[2..2] == "";
  }

  /** A repeated placeholder is reported once per occurrence, in order. */
  lemma RepeatedPlaceholderIsKept()
    ensures Names("${a}x${a}", 0) == ["a", "a"]
  {
    var s := "${a}x${a}";
    assert Find(s, 0) == Some(Span(0, 3));
    assert Find(s, 4) == Some(Span(5, 8));
    assert Find(s, 9) == None;
    assert s[2..3] == "a" && s[7..8] == "a";
  }

  /** A line break before the closing brace voids the match at that `${`. */
  lemma LineBreakVoidsMatch()
    ensures Names("${a\n}${b}", 0) == ["b"]
  {
    var s := "${a\n}${b}";
    assert ClosingBrace(s, 2) == None;
    assert Find(s, 3) == Some(Span(5, 8));
    assert Find(s, 0) == Some(Span(5, 8));
    assert Find(s, 9) == None;
    assert s[7..8] == "b";
  }

  /** After a voided match the scan retries one character later and finds a later `${`. */
  lemma ScanRetriesAfterVoidedMatch()
    ensures Names("${a\n${b}", 0) == ["b"]
  {
    var s := "${a\n${b}";
    assert ClosingBrace(s, 2) == None;
    assert Find(s, 3) == Some(Span(4, 7));
    assert Find(s, 0) == Some(Span(4, 7));
    assert Find(s, 8) == None;
    assert s[6..7] == "b";
  }
}
