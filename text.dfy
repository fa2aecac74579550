/**
 * JavaScript's `String.prototype.trim` and the "non-blank entries, trimmed"
 * rule that every form and the task route apply to lists of names.
 */
module Text {
  import Seqs

  /** The WhiteSpace and LineTerminator code points that `trim` strips (ECMAScript, section 22.1.3.32). */
  predicate IsWhitespace(c: char) {
    || c == ' ' || c == '\t' || c == '\n' || c == '\r' || c == '\U{000B}' || c == '\U{000C}'
    || c == '\U{00A0}' || c == '\U{FEFF}' || c == '\U{1680}'
    || ('\U{2000}' <= c <= '\U{200A}')
    || c == '\U{2028}' || c == '\U{2029}' || c == '\U{202F}' || c == '\U{205F}' || c == '\U{3000}'
  }

  predicate AllWhitespace(s: string) {
    forall i :: 0 <= i < |s| ==> IsWhitespace(s[i])
  }

  /** Neither end of `s` is whitespace. */
  predicate IsTrimmed(s: string) {
    s == [] || (!IsWhitespace(s[0]) && !IsWhitespace(s[|s| - 1]))
  }

  /** The length of the whitespace run at the start of `s`. */
  function LeadingWhitespace(s: string): (n: nat)
    ensures n <= |s|
    ensures AllWhitespace(s[..n])
    ensures n < |s| ==> !IsWhitespace(s[n])
  {
    if s != [] && IsWhitespace(s[0]) then 1 + LeadingWhitespace(s[1..]) else 0
  }

  /** The length of the whitespace run at the end of `s`. */
  function TrailingWhitespace(s: string): (n: nat)
    ensures n <= |s|
    ensures AllWhitespace(s[|s| - n..])
    ensures n < |s| ==> !IsWhitespace(s[|s| - 1 - n])
  {
    if s != [] && IsWhitespace(s[|s| - 1]) then 1 + TrailingWhitespace(s[..|s| - 1]) else 0
  }

  /** `s.trim()`. */
  function Trim(s: string): (r: string)
    ensures IsTrimmed(r)
    ensures |r| <= |s|
    ensures r == [] <==> AllWhitespace(s)
    ensures IsTrimmed(s) ==> r == s
  {
    var a := LeadingWhitespace(s);
    var rest := s[a..];
    var b := TrailingWhitespace(rest);
    assert AllWhitespace(s) ==> a == |s|;
    if a == |s| then
      assert s[..a] == s;
      []
    else
      rest[..|rest| - b]
  }

  /** `s.trim() === ""` (equivalently, `!s.trim()`). */
  predicate IsBlank(s: string) {
    Trim(s) == []
  }

  predicate NotBlank(s: string) {
    !IsBlank(s)
  }

  /** Trimming is idempotent. */
  lemma TrimIdempotent(s: string)
    ensures Trim(Trim(s)) == Trim(s)
  {
  }

  /** Whitespace leading a string adds exactly its length to the leading run. */
  lemma {:induction false} LeadingPadding(w: string, t: string)
    requires AllWhitespace(w)
    ensures LeadingWhitespace(w + t) == |w| + LeadingWhitespace(t)
  {
    if w != [] {
      assert (w + t)[1..] == w[1..] + t;
      LeadingPadding(w[1..], t);
    } else {
      assert w + t == t;
    }
  }

  /** Whitespace ending a string adds exactly its length to the trailing run. */
  lemma {:induction false} TrailingPadding(t: string, w: string)
    requires AllWhitespace(w)
    ensures TrailingWhitespace(t + w) == TrailingWhitespace(t) + |w|
  {
    if w != [] {
      assert (t + w)[..|t + w| - 1] == t + w[..|w| - 1];
      TrailingPadding(t, w[..|w| - 1]);
    } else {
      assert t + w == t;
    }
  }

  /**
   * `trim` removes exactly the surrounding whitespace: padding a trimmed
   * string with whitespace on either side and trimming gives it back.
   */
  lemma TrimStripsPadding(pre: string, t: string, post: string)
    requires AllWhitespace(pre) && AllWhitespace(post) && IsTrimmed(t)
    ensures Trim(pre + t + post) == t
  {
    var s := pre + t + post;
    if t == [] {
      assert s == pre + post;
      assert AllWhitespace(s);
    } else {
      assert s == pre + (t + post);
      LeadingPadding(pre, t + post);
      assert LeadingWhitespace(t + post) == 0;
      var a := LeadingWhitespace(s);
      assert a == |pre|;
      assert s[a..] == t + post;
      TrailingPadding(t, post);
      assert TrailingWhitespace(t) == 0;
      assert (t + post)[..|t + post| - |post|] == t;
    }
  }

  /**
   * The source's `.filter(x => x.trim() !== "").map(x => x.trim())`: the
   * non-blank entries of `names`, trimmed, in order.
   */
  function NonBlankTrimmed(names: seq<string>): (r: seq<string>)
    ensures |r| <= |names|
    ensures forall x :: x in r ==> x != [] && IsTrimmed(x)
  {
    var kept := Seqs.Filter(NotBlank, names);
    var r := Seqs.Map(Trim, kept);
    assert forall x :: x in r ==> x != [] && IsTrimmed(x) by {
      forall x | x in r ensures x != [] && IsTrimmed(x) {
        var i :| 0 <= i < |r| && r[i] == x;
        assert kept[i] in kept;
      }
    }
    r
  }

  /** A single entry contributes its trimmed self, or nothing when blank. */
  lemma NonBlankTrimmedSingle(x: string)
    ensures NonBlankTrimmed([x]) == if IsBlank(x) then [] else [Trim(x)]
  {
    assert [x][1..] == [];
  }

  /** The rule distributes over concatenation, so with `NonBlankTrimmedSingle` it is fully determined. */
  lemma NonBlankTrimmedAppend(s: seq<string>, t: seq<string>)
    ensures NonBlankTrimmed(s + t) == NonBlankTrimmed(s) + NonBlankTrimmed(t)
  {
    Seqs.FilterAppend(NotBlank, s, t);
    Seqs.MapAppend(Trim, Seqs.Filter(NotBlank, s), Seqs.Filter(NotBlank, t));
  }

  /** Applying the rule a second time (as the server does to what the client sent) changes nothing. */
  lemma NonBlankTrimmedIdempotent(names: seq<string>)
    ensures NonBlankTrimmed(NonBlankTrimmed(names)) == NonBlankTrimmed(names)
  {
    var r := NonBlankTrimmed(names);
    assert forall i :: 0 <= i < |r| ==> NotBlank(r[i]) by {
      forall i | 0 <= i < |r| ensures NotBlank(r[i]) {
        assert r[i] in r;
      }
    }
    Seqs.FilterAll(NotBlank, r);
    assert Seqs.Map(Trim, r) == r by {
      forall i | 0 <= i < |r| ensures Trim(r[i]) == r[i] {
        assert r[i] in r;
      }
    }
  }
}
