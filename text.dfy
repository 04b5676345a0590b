/**
  JavaScript's String.prototype.trim, used on the description input and on
  the text of a highlighted tag button.
 */
module Text {

  /**
    The code points of ECMAScript's WhiteSpace and LineTerminator productions,
    which trim strips: tab to carriage return, space, no-break space, ogham
    space mark, en quad to hair space, line and paragraph separators, narrow
    no-break space, medium mathematical space, ideographic space and the
    byte-order mark.
   */
  predicate IsWhitespace(c: char) {
    var n := c as int;
    || 0x09 <= n <= 0x0D || n == 0x20 || n == 0xA0 || n == 0x1680
    || 0x2000 <= n <= 0x200A || n == 0x2028 || n == 0x2029 || n == 0x202F
    || n == 0x205F || n == 0x3000 || n == 0xFEFF
  }

  /** Every character of `s` is whitespace (so `s.trim()` is the empty, falsy, string). */
  predicate Blank(s: string) {
    forall i :: 0 <= i < |s| ==> IsWhitespace(s[i])
  }

  /** The first position at or after `i` that is not whitespace (or `|s|`): all skipped characters are whitespace. */
  function SkipLeading(s: string, i: nat): (k: nat)
    requires i <= |s|
    ensures i <= k <= |s|
    ensures forall j :: i <= j < k ==> IsWhitespace(s[j])
    ensures k == |s| || !IsWhitespace(s[k])
    decreases |s| - i
  {
    if i < |s| && IsWhitespace(s[i]) then SkipLeading(s, i + 1) else i
  }

  /** The end of `s[lo..hi]` once its trailing whitespace is dropped: all dropped characters are whitespace. */
  function SkipTrailing(s: string, lo: nat, hi: nat): (k: nat)
    requires lo <= hi <= |s|
    ensures lo <= k <= hi
    ensures forall j :: k <= j < hi ==> IsWhitespace(s[j])
    ensures k == lo || !IsWhitespace(s[k - 1])
  {
    if lo < hi && IsWhitespace(s[hi - 1]) then SkipTrailing(s, lo, hi - 1) else hi
  }

  /**
    `s.trim()`: the slice of `s` between its leading and its trailing
    whitespace. It is never longer than `s`, and it neither starts nor ends
    with whitespace.
   */
  function Trim(s: string): (t: string)
    ensures |t| <= |s|
    ensures t == [] || (!IsWhitespace(t[0]) && !IsWhitespace(t[|t| - 1]))
  {
    var a := SkipLeading(s, 0);
    var b := SkipTrailing(s, a, |s|);
    assert b > a ==> s[a..b][0] == s[a] && s[a..b][b - a - 1] == s[b - 1];
    s[a..b]
  }

  /**
    A string that neither starts nor ends with whitespace is its own trim; with
    Trim's contract this makes trim idempotent.
   */
  lemma TrimOfTrimmed(s: string)
    requires s == [] || (!IsWhitespace(s[0]) && !IsWhitespace(s[|s| - 1]))
    ensures Trim(s) == s
    ensures Trim(Trim(s)) == Trim(s)
  {
    var a := SkipLeading(s, 0);
    assert a == 0;
    var b := SkipTrailing(s, a, |s|);
    assert b == |s|;
    assert s[a..b] == s;
  }

  /**
    What trim promises besides its own contract: it keeps a slice of `s` and
    everything it cuts away is whitespace; it is empty exactly when `s` is
    blank.
   */
  lemma TrimSpec(s: string)
    ensures exists a, b ::
              && 0 <= a <= b <= |s| && Trim(s) == s[a..b]
              && (forall j :: 0 <= j < a ==> IsWhitespace(s[j]))
              && (forall j :: b <= j < |s| ==> IsWhitespace(s[j]))
    ensures Trim(s) == [] <==> Blank(s)
  {
    var a := SkipLeading(s, 0);
    var b := SkipTrailing(s, a, |s|);
    assert Trim(s) == s[a..b];
    assert (forall j :: 0 <= j < a ==> IsWhitespace(s[j])) && (forall j :: b <= j < |s| ==> IsWhitespace(s[j]));
  }
}
