/**
 * The two input sanitisers of the login form:
 *   sanitizeText  = trim, then replace every run of whitespace by one space;
 *   sanitizeEmpNo = trim, then delete every character that is not a digit.
 * The functions carry only what their own termination needs; what they
 * guarantee is stated by the lemmas next to them, so that callers that only
 * compare results with "" are not burdened with it.
 */
module Sanitize {

  /** The characters JavaScript's `\s` and `String.prototype.trim` treat as
      whitespace: the WhiteSpace and LineTerminator code points of ECMAScript
      (tab, line feed, vertical tab, form feed, carriage return, the byte
      order mark and every Unicode space separator). */
  predicate IsSpace(c: char) {
    || c == ' ' || c == '\t' || c == '\n' || c == '\r' || c == '\U{000B}' || c == '\U{000C}'
    || c == '\U{00A0}' || c == '\U{1680}' || ('\U{2000}' <= c <= '\U{200A}')
    || c == '\U{2028}' || c == '\U{2029}' || c == '\U{202F}' || c == '\U{205F}'
    || c == '\U{3000}' || c == '\U{FEFF}'
  }

  /** JavaScript's `\d`: the ASCII digits only. */
  predicate IsDigit(c: char) {
    '0' <= c <= '9'
  }

  predicate AllSpace(s: string) {
    forall i :: 0 <= i < |s| ==> IsSpace(s[i])
  }

  predicate AllDigits(s: string) {
    forall i :: 0 <= i < |s| ==> IsDigit(s[i])
  }

  /** No whitespace at either end. */
  predicate Trimmed(s: string) {
    s == [] || (!IsSpace(s[0]) && !IsSpace(s[|s| - 1]))
  }

  /** Positions `i` and `i + 1` of `s` are not both whitespace. */
  predicate NoDoubleSpaceAt(s: string, i: int)
    requires 0 <= i < |s| - 1
  {
    !(IsSpace(s[i]) && IsSpace(s[i + 1]))
  }

  /** Every whitespace character is a plain space and no two of them are adjacent. */
  predicate Collapsed(s: string) {
    && (forall i :: 0 <= i < |s| && IsSpace(s[i]) ==> s[i] == ' ')
    && (forall i :: 0 <= i < |s| - 1 ==> NoDoubleSpaceAt(s, i))
  }

  /** The non-whitespace characters of `s`, in order: what sanitising must keep. */
  function Visible(s: string): string {
    if s == [] then []
    else if IsSpace(s[0]) then Visible(s[1..])
    else [s[0]] + Visible(s[1..])
  }

  lemma {:induction false} VisibleAppend(a: string, b: string)
    ensures Visible(a + b) == Visible(a) + Visible(b)
  {
    if a == [] {
      assert a + b == b;
    } else {
      assert (a + b)[0] == a[0] && (a + b)[1..] == a[1..] + b;
      VisibleAppend(a[1..], b);
    }
  }

  /** A text has no visible character exactly when it is all whitespace. */
  lemma {:induction false} VisibleEmptyIffAllSpace(s: string)
    ensures Visible(s) == [] <==> AllSpace(s)
  {
    if s != [] {
      VisibleEmptyIffAllSpace(s[1..]);
      if IsSpace(s[0]) {
        if AllSpace(s[1..]) {
          forall i | 0 <= i < |s|
            ensures IsSpace(s[i])
          {
            if i > 0 { assert s[i] == s[1..][i - 1]; }
          }
        } else {
          var j :| 0 <= j < |s[1..]| && !IsSpace(s[1..][j]);
          assert s[j + 1] == s[1..][j];
        }
      }
    }
  }

  lemma AllSpaceConcat(u: string, v: string)
    requires AllSpace(u) && AllSpace(v)
    ensures AllSpace(u + v)
  {
    forall i | 0 <= i < |u + v|
      ensures IsSpace((u + v)[i])
    {
      if i < |u| { assert (u + v)[i] == u[i]; } else { assert (u + v)[i] == v[i - |u|]; }
    }
  }

  // ---------------------------------------------------------------- trim

  /** Drops the leading whitespace (the left half of `trim`). */
  function TrimStart(s: string): (r: string)
    ensures |r| <= |s|
  {
    if s != [] && IsSpace(s[0]) then TrimStart(s[1..]) else s
  }

  /** TrimStart removes a prefix of whitespace and nothing else. */
  lemma {:induction false} TrimStartFacts(s: string)
    ensures var r := TrimStart(s);
      && r == s[|s| - |r|..]
      && AllSpace(s[..|s| - |r|])
      && (r == [] || !IsSpace(r[0]))
  {
    if s != [] && IsSpace(s[0]) {
      TrimStartFacts(s[1..]);
      var r := TrimStart(s);
      assert s[..|s| - |r|] == [s[0]] + s[1..][..|s[1..]| - |r|];
    }
  }

  /** Drops the trailing whitespace (the right half of `trim`). */
  function TrimEnd(s: string): (r: string)
    ensures |r| <= |s|
  {
    if s != [] && IsSpace(s[|s| - 1]) then TrimEnd(s[..|s| - 1]) else s
  }

  /** TrimEnd removes a suffix of whitespace and nothing else. */
  lemma {:induction false} TrimEndFacts(s: string)
    ensures var r := TrimEnd(s);
      && r == s[..|r|]
      && (r == [] || !IsSpace(r[|r| - 1]))
  {
    if s != [] && IsSpace(s[|s| - 1]) {
      TrimEndFacts(s[..|s| - 1]);
    }
  }

  /** `String.prototype.trim`. */
  function Trim(s: string): (r: string)
    ensures |r| <= |s|
  {
    TrimEnd(TrimStart(s))
  }

  /** `TrimStart` removes a whitespace prefix and nothing else. */
  lemma {:induction false} TrimStartSplit(s: string) returns (lead: string)
    ensures s == lead + TrimStart(s) && AllSpace(lead)
    decreases |s|
  {
    if s != [] && IsSpace(s[0]) {
      var rest := TrimStartSplit(s[1..]);
      lead := [s[0]] + rest;
      assert AllSpace([s[0]]);
      AllSpaceConcat([s[0]], rest);
      assert s == [s[0]] + s[1..];
    } else {
      lead := [];
    }
  }

  /** `TrimEnd` removes a whitespace suffix and nothing else. */
  lemma {:induction false} TrimEndSplit(s: string) returns (trail: string)
    ensures s == TrimEnd(s) + trail && AllSpace(trail)
    decreases |s|
  {
    if s != [] && IsSpace(s[|s| - 1]) {
      var init := s[..|s| - 1];
      var rest := TrimEndSplit(init);
      trail := rest + [s[|s| - 1]];
      assert AllSpace([s[|s| - 1]]);
      AllSpaceConcat(rest, [s[|s| - 1]]);
      assert s == init + [s[|s| - 1]];
    } else {
      trail := [];
    }
  }

  /** `trim` removes a whitespace prefix and a whitespace suffix and nothing else. */
  lemma {:induction false} TrimSplit(s: string) returns (lead: string, trail: string)
    ensures s == lead + Trim(s) + trail && AllSpace(lead) && AllSpace(trail)
  {
    lead := TrimStartSplit(s);
    trail := TrimEndSplit(TrimStart(s));
  }

  /** Whitespace in front of a text that starts visibly is all `TrimStart` drops. */
  lemma {:induction false} TrimStartOfSpaces(w: string, y: string)
    requires AllSpace(w) && (y == [] || !IsSpace(y[0]))
    ensures TrimStart(w + y) == y
    decreases |w|
  {
    if w == [] {
      assert w + y == y;
    } else {
      assert (w + y)[0] == w[0] && (w + y)[1..] == w[1..] + y;
      assert IsSpace(w[0]);
      TrimStartOfSpaces(w[1..], y);
    }
  }

  /** Whitespace after a text that ends visibly is all `TrimEnd` drops. */
  lemma {:induction false} TrimEndOfSpaces(x: string, w: string)
    requires AllSpace(w) && (x == [] || !IsSpace(x[|x| - 1]))
    ensures TrimEnd(x + w) == x
    decreases |w|
  {
    if w == [] {
      assert x + w == x;
    } else {
      var init := w[..|w| - 1];
      assert (x + w)[..|x + w| - 1] == x + init;
      assert (x + w)[|x + w| - 1] == w[|w| - 1];
      TrimEndOfSpaces(x, init);
    }
  }

  /** Padding a trimmed, non-empty text with whitespace on both sides is undone by `trim`. */
  lemma TrimOfPadded(lead: string, core: string, trail: string)
    requires AllSpace(lead) && AllSpace(trail) && core != [] && Trimmed(core)
    ensures Trim(lead + core + trail) == core
  {
    assert lead + core + trail == lead + (core + trail);
    assert (core + trail)[0] == core[0];
    TrimStartOfSpaces(lead, core + trail);
    TrimEndOfSpaces(core, trail);
  }

  lemma TrimIsTrimmed(s: string)
    ensures Trimmed(Trim(s))
  {
    var t := TrimStart(s);
    TrimStartFacts(s);
    TrimEndFacts(t);
  }

  lemma TrimStartOfNonSpace(s: string)
    requires s == [] || !IsSpace(s[0])
    ensures TrimStart(s) == s
  {
  }

  lemma TrimOfTrimmed(s: string)
    requires Trimmed(s)
    ensures Trim(s) == s
  {
    assert TrimStart(s) == s;
    assert TrimEnd(s) == s;
  }

  lemma {:induction false} VisibleOfTrimStart(s: string)
    ensures Visible(TrimStart(s)) == Visible(s)
  {
    if s != [] && IsSpace(s[0]) {
      VisibleOfTrimStart(s[1..]);
    }
  }

  lemma {:induction false} VisibleOfTrimEnd(s: string)
    ensures Visible(TrimEnd(s)) == Visible(s)
  {
    if s != [] && IsSpace(s[|s| - 1]) {
      var init := s[..|s| - 1];
      VisibleOfTrimEnd(init);
      assert s == init + [s[|s| - 1]];
      VisibleAppend(init, [s[|s| - 1]]);
    }
  }

  lemma VisibleOfTrim(s: string)
    ensures Visible(Trim(s)) == Visible(s)
  {
    VisibleOfTrimStart(s);
    VisibleOfTrimEnd(TrimStart(s));
  }

  // ------------------------------------------------------------ collapse

  /** `s.replace(/\s+/g, " ")`: every maximal run of whitespace becomes one space. */
  function Collapse(s: string): (r: string)
    decreases |s|
  {
    if s == [] then []
    else if IsSpace(s[0]) then " " + Collapse(TrimStart(s[1..]))
    else [s[0]] + Collapse(s[1..])
  }

  /** Collapse keeps emptiness and whether each end is whitespace. */
  lemma {:induction false} CollapseEnds(s: string)
    ensures var r := Collapse(s);
      && (r == [] <==> s == [])
      && (s != [] ==> (IsSpace(r[0]) <==> IsSpace(s[0])))
      && (s != [] ==> (IsSpace(r[|r| - 1]) <==> IsSpace(s[|s| - 1])))
    decreases |s|
  {
    if s == [] {
    } else if IsSpace(s[0]) {
      var rest := TrimStart(s[1..]);
      TrimStartFacts(s[1..]);
      CollapseEnds(rest);
      if rest == [] {
        assert s[1..] == s[1..][..|s[1..]|];
        assert |s| > 1 ==> IsSpace(s[1..][|s| - 2]);
      } else {
        assert rest[|rest| - 1] == s[|s| - 1];
      }
    } else {
      CollapseEnds(s[1..]);
    }
  }

  /** Prepending one character to a collapsed text keeps it collapsed, unless
      it is whitespace other than a space or it doubles a leading space. */
  lemma ConsCollapsed(c: char, t: string)
    requires Collapsed(t)
    requires IsSpace(c) ==> c == ' ' && (t == [] || !IsSpace(t[0]))
    ensures Collapsed([c] + t)
  {
    var s := [c] + t;
    forall i | 0 <= i < |s| - 1
      ensures NoDoubleSpaceAt(s, i)
    {
      if i > 0 {
        assert NoDoubleSpaceAt(t, i - 1);
        assert s[i] == t[i - 1] && s[i + 1] == t[i];
      }
    }
    forall i | 0 <= i < |s| && IsSpace(s[i])
      ensures s[i] == ' '
    {
      if i > 0 { assert s[i] == t[i - 1]; }
    }
  }

  lemma {:induction false} CollapseIsCollapsed(s: string)
    ensures Collapsed(Collapse(s))
    decreases |s|
  {
    if s == [] {
    } else if IsSpace(s[0]) {
      var rest := TrimStart(s[1..]);
      TrimStartFacts(s[1..]);
      CollapseIsCollapsed(rest);
      CollapseEnds(rest);
      ConsCollapsed(' ', Collapse(rest));
    } else {
      CollapseIsCollapsed(s[1..]);
      ConsCollapsed(s[0], Collapse(s[1..]));
    }
  }

  lemma {:induction false} VisibleOfCollapse(s: string)
    ensures Visible(Collapse(s)) == Visible(s)
    decreases |s|
  {
    if s == [] {
    } else if IsSpace(s[0]) {
      var rest := TrimStart(s[1..]);
      VisibleOfCollapse(rest);
      VisibleOfTrimStart(s[1..]);
      assert (" " + Collapse(rest))[1..] == Collapse(rest);
    } else {
      VisibleOfCollapse(s[1..]);
      assert ([s[0]] + Collapse(s[1..]))[1..] == Collapse(s[1..]);
    }
  }

  /** `TrimStart` of a text that ends visibly does not reach past it. */
  lemma {:induction false} TrimStartAppend(x: string, y: string)
    requires x != [] && !IsSpace(x[|x| - 1])
    ensures TrimStart(x + y) == TrimStart(x) + y
    decreases |x|
  {
    assert (x + y)[0] == x[0];
    if IsSpace(x[0]) {
      assert (x + y)[1..] == x[1..] + y;
      TrimStartAppend(x[1..], y);
    }
  }

  lemma {:induction false} TrimStartKeepsVisibleEnd(s: string)
    requires s != [] && !IsSpace(s[|s| - 1])
    ensures var r := TrimStart(s); r != [] && r[|r| - 1] == s[|s| - 1]
    decreases |s|
  {
    if IsSpace(s[0]) {
      TrimStartKeepsVisibleEnd(s[1..]);
    }
  }

  /** A text that ends visibly collapses independently of what follows it. */
  lemma {:induction false} CollapseAppend(x: string, y: string)
    requires x == [] || !IsSpace(x[|x| - 1])
    ensures Collapse(x + y) == Collapse(x) + Collapse(y)
    decreases |x|
  {
    if x == [] {
      assert x + y == y;
    } else {
      assert (x + y)[0] == x[0] && (x + y)[1..] == x[1..] + y;
      if IsSpace(x[0]) {
        var rest := TrimStart(x[1..]);
        TrimStartAppend(x[1..], y);
        TrimStartKeepsVisibleEnd(x[1..]);
        CollapseAppend(rest, y);
      } else {
        CollapseAppend(x[1..], y);
      }
    }
  }

  /** A whitespace run between two visible ends becomes exactly one space. */
  lemma {:induction false} CollapseSpaceJoin(x: string, w: string, y: string)
    requires x == [] || !IsSpace(x[|x| - 1])
    requires w != [] && AllSpace(w)
    requires y == [] || !IsSpace(y[0])
    ensures Collapse(x + w + y) == Collapse(x) + " " + Collapse(y)
  {
    assert x + w + y == x + (w + y);
    CollapseAppend(x, w + y);
    CollapseOfSpaceRun(w, y);
  }

  /** A leading whitespace run before a visible character collapses to one space. */
  lemma {:induction false} CollapseOfSpaceRun(w: string, y: string)
    requires w != [] && AllSpace(w)
    requires y == [] || !IsSpace(y[0])
    ensures Collapse(w + y) == " " + Collapse(y)
  {
    var wy := w + y;
    assert wy[0] == w[0] && IsSpace(w[0]);
    assert wy[1..] == w[1..] + y;
    AllSpaceTail(w);
    TrimStartOfSpaces(w[1..], y);
  }

  lemma AllSpaceTail(w: string)
    requires w != [] && AllSpace(w)
    ensures AllSpace(w[1..])
  {
    forall i | 0 <= i < |w| - 1
      ensures IsSpace(w[1..][i])
    {
      assert w[1..][i] == w[i + 1];
    }
  }

  lemma CollapsedTail(s: string)
    requires s != [] && Collapsed(s)
    ensures Collapsed(s[1..])
  {
    var t := s[1..];
    forall i | 0 <= i < |t| - 1
      ensures NoDoubleSpaceAt(t, i)
    {
      assert NoDoubleSpaceAt(s, i + 1);
      assert t[i] == s[i + 1] && t[i + 1] == s[i + 2];
    }
    forall i | 0 <= i < |t| && IsSpace(t[i])
      ensures t[i] == ' '
    {
      assert t[i] == s[i + 1];
    }
  }

  lemma SpaceIsFollowedByVisible(s: string)
    requires Collapsed(s) && s != [] && IsSpace(s[0])
    ensures s[0] == ' '
    ensures |s| == 1 || !IsSpace(s[1])
  {
    if |s| > 1 { assert NoDoubleSpaceAt(s, 0); }
  }

  /** A collapsed text is left as it is. */
  lemma {:induction false} CollapseOfCollapsed(s: string)
    requires Collapsed(s)
    ensures Collapse(s) == s
    decreases |s|
  {
    if s != [] {
      var tail := s[1..];
      assert s == [s[0]] + tail;
      CollapsedTail(s);
      CollapseOfCollapsed(tail);
      if IsSpace(s[0]) {
        SpaceIsFollowedByVisible(s);
        TrimStartOfNonSpace(tail);
      }
    }
  }

  // -------------------------------------------------------- sanitizeText

  /** `sanitizeText(s)` on a string argument (`String(s || "")` is `s`). */
  function SanitizeText(s: string): (r: string)
    ensures |r| <= |s|
  {
    CollapseShorter(Trim(s));
    Collapse(Trim(s))
  }

  lemma {:induction false} CollapseShorter(s: string)
    ensures |Collapse(s)| <= |s|
    decreases |s|
  {
    if s != [] {
      if IsSpace(s[0]) {
        CollapseShorter(TrimStart(s[1..]));
      } else {
        CollapseShorter(s[1..]);
      }
    }
  }

  /** The result of `sanitizeText` has no whitespace at either end, only
      single plain spaces inside, the same visible characters in the same
      order, and is empty exactly when the input was all whitespace. */
  lemma SanitizeTextShape(s: string)
    ensures var r := SanitizeText(s);
      && Trimmed(r) && Collapsed(r)
      && Visible(r) == Visible(s)
      && (r == [] <==> Visible(s) == [])
      && (r == [] <==> AllSpace(s))
  {
    VisibleEmptyIffAllSpace(s);
    var t := Trim(s);
    var r := Collapse(t);
    TrimIsTrimmed(s);
    VisibleOfTrim(s);
    VisibleOfCollapse(t);
    CollapseIsCollapsed(t);
    CollapseEnds(t);
    if r != [] {
      assert r == [r[0]] + r[1..];
      VisibleAppend([r[0]], r[1..]);
    }
  }

  /** A text with a visible character trims to a non-empty trimmed text. */
  lemma {:induction false} TrimOfVisible(s: string)
    requires Visible(s) != []
    ensures Trim(s) != [] && Trimmed(Trim(s))
  {
    VisibleOfTrim(s);
    TrimIsTrimmed(s);
  }

  /** Trimming two visible texts joined by whitespace keeps the inner
      whitespace, all of it, and only strips the outer ends. */
  lemma {:induction false} TrimOfJoin(a: string, c: char, b: string) returns (w: string)
    requires IsSpace(c) && Visible(a) != [] && Visible(b) != []
    ensures w != [] && AllSpace(w)
    ensures Trim(a + [c] + b) == Trim(a) + w + Trim(b)
  {
    var ta, tb := Trim(a), Trim(b);
    TrimOfVisible(a);
    TrimOfVisible(b);
    var la, ra := TrimSplit(a);
    var lb, rb := TrimSplit(b);
    w := ra + [c] + lb;
    assert AllSpace([c]);
    AllSpaceConcat(ra, [c]);
    AllSpaceConcat(ra + [c], lb);
    var core := ta + w + tb;
    assert core[0] == ta[0] && core[|core| - 1] == tb[|tb| - 1];
    assert a + [c] + b == la + core + rb;
    TrimOfPadded(la, core, rb);
  }

  /** Two words separated by any whitespace run, itself possibly padded, come
      out separated by exactly one space: `sanitizeText` folds the run rather
      than deleting it. */
  lemma {:induction false} SanitizeTextJoin(a: string, c: char, b: string)
    requires IsSpace(c) && Visible(a) != [] && Visible(b) != []
    ensures SanitizeText(a + [c] + b) == SanitizeText(a) + " " + SanitizeText(b)
  {
    var w := TrimOfJoin(a, c, b);
    TrimOfVisible(a);
    TrimOfVisible(b);
    CollapseSpaceJoin(Trim(a), w, Trim(b));
  }

  /** Sanitising a sanitised text changes nothing, so a pre-filled form field
      that is submitted again yields the same value. */
  lemma SanitizeTextIdempotent(s: string)
    ensures SanitizeText(SanitizeText(s)) == SanitizeText(s)
  {
    var r := SanitizeText(s);
    SanitizeTextShape(s);
    TrimOfTrimmed(r);
    CollapseOfCollapsed(r);
  }

  // ------------------------------------------------------- sanitizeEmpNo

  /** The `replace(/[^\d]/g, "")` step: the digits of `s`, in order. */
  function KeepDigits(s: string): (r: string)
    ensures |r| <= |s|
  {
    if s == [] then []
    else if IsDigit(s[0]) then [s[0]] + KeepDigits(s[1..])
    else KeepDigits(s[1..])
  }

  lemma {:induction false} KeepDigitsAreDigits(s: string)
    ensures AllDigits(KeepDigits(s))
  {
    if s != [] {
      KeepDigitsAreDigits(s[1..]);
    }
  }

  lemma {:induction false} KeepDigitsCounts(s: string, c: char)
    requires IsDigit(c)
    ensures multiset(KeepDigits(s))[c] == multiset(s)[c]
  {
    if s != [] {
      KeepDigitsCounts(s[1..], c);
      assert s == [s[0]] + s[1..];
      assert multiset(s) == multiset([s[0]]) + multiset(s[1..]);
      if IsDigit(s[0]) {
        assert multiset(KeepDigits(s)) == multiset([s[0]]) + multiset(KeepDigits(s[1..]));
      } else {
        assert s[0] != c;
      }
    }
  }

  lemma {:induction false} KeepDigitsOfDigits(s: string)
    requires AllDigits(s)
    ensures KeepDigits(s) == s
  {
    if s != [] {
      KeepDigitsOfDigits(s[1..]);
      assert s == [s[0]] + s[1..];
    }
  }

  lemma {:induction false} KeepDigitsAppend(a: string, b: string)
    ensures KeepDigits(a + b) == KeepDigits(a) + KeepDigits(b)
  {
    if a == [] {
      assert a + b == b;
    } else {
      assert (a + b)[0] == a[0] && (a + b)[1..] == a[1..] + b;
      KeepDigitsAppend(a[1..], b);
    }
  }

  lemma {:induction false} KeepDigitsOfTrimStart(s: string)
    ensures KeepDigits(TrimStart(s)) == KeepDigits(s)
  {
    if s != [] && IsSpace(s[0]) {
      KeepDigitsOfTrimStart(s[1..]);
    }
  }

  lemma {:induction false} KeepDigitsOfTrimEnd(s: string)
    ensures KeepDigits(TrimEnd(s)) == KeepDigits(s)
  {
    if s != [] && IsSpace(s[|s| - 1]) {
      var init := s[..|s| - 1];
      KeepDigitsOfTrimEnd(init);
      assert s == init + [s[|s| - 1]];
      KeepDigitsAppend(init, [s[|s| - 1]]);
      assert KeepDigits([s[|s| - 1]]) == [];
    }
  }

  /** Whitespace is never a digit, so the `trim` before the filter changes nothing. */
  lemma TrimCannotChangeDigits(s: string)
    ensures KeepDigits(Trim(s)) == KeepDigits(s)
  {
    KeepDigitsOfTrimStart(s);
    KeepDigitsOfTrimEnd(TrimStart(s));
  }

  /** `sanitizeEmpNo(s)` on a string argument. */
  function SanitizeEmpNo(s: string): (r: string)
    ensures |r| <= |s|
  {
    KeepDigits(Trim(s))
  }

  /** Only digits remain, each digit of the input is kept as often as it
      occurs, and an all-digit input comes back unchanged. */
  lemma SanitizeEmpNoShape(s: string)
    ensures var r := SanitizeEmpNo(s);
      && AllDigits(r)
      && (forall c :: IsDigit(c) ==> multiset(r)[c] == multiset(s)[c])
      && (AllDigits(s) ==> r == s)
  {
    TrimCannotChangeDigits(s);
    KeepDigitsAreDigits(s);
    forall c | IsDigit(c)
      ensures multiset(SanitizeEmpNo(s))[c] == multiset(s)[c]
    {
      KeepDigitsCounts(s, c);
    }
    if AllDigits(s) {
      KeepDigitsOfDigits(s);
    }
  }

  /** Sanitising an employee number twice is the same as once. */
  lemma SanitizeEmpNoIdempotent(s: string)
    ensures SanitizeEmpNo(SanitizeEmpNo(s)) == SanitizeEmpNo(s)
  {
    SanitizeEmpNoShape(s);
    SanitizeEmpNoShape(SanitizeEmpNo(s));
  }
}
