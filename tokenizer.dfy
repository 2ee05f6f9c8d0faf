/**
 * A whitespace tokenizer over a character buffer it does not own: a position
 * and an end that move toward each other as tokens are taken.
 */
module Tokenizers {
  import opened StringUtils

  /** Every character of s is whitespace. */
  predicate AllWhiteSpace(s: string)
  {
    forall i | 0 <= i < |s| :: IsWhiteSpace(s[i])
  }

  /** The index just past the whitespace run of text starting at from, stopping at end. */
  function SkipEnd(text: seq<char>, from: nat, end: nat): (k: nat)
    requires from <= end <= |text|
    ensures from <= k <= end
    ensures AllWhiteSpace(text[from..k]) && (k == end || !IsWhiteSpace(text[k]))
    decreases end - from
  {
    if from < end && IsWhiteSpace(text[from]) then SkipEnd(text, from + 1, end) else from
  }

  /** The index just past the non-whitespace run of text starting at from, stopping at end. */
  function TokenEnd(text: seq<char>, from: nat, end: nat): (k: nat)
    requires from <= end <= |text|
    ensures from <= k <= end
    ensures (forall i | from <= i < k :: !IsWhiteSpace(text[i])) && (k == end || IsWhiteSpace(text[k]))
    decreases end - from
  {
    if from < end && !IsWhiteSpace(text[from]) then TokenEnd(text, from + 1, end) else from
  }

  class Tokenizer {
    /** The buffer the tokenizer reads (it keeps no copy). */
    const text: seq<char>
    /** The current position. */
    var position: nat
    /** One past the last character to read. */
    var end: nat

    ghost predicate Valid()
      reads this
    {
      position <= end <= |text|
    }

    /** Over the first length characters of s. */
    constructor(s: seq<char>, length: nat)
      requires length <= |s|
      ensures Valid() && text == s && position == 0 && end == length
    {
      text := s;
      position := 0;
      end := length;
    }

    /** Over a whole string. */
    constructor OfString(s: string)
      ensures Valid() && text == s && position == 0 && end == |s|
    {
      text := s;
      position := 0;
      end := |s|;
    }

    /** Over a NUL-terminated buffer, up to its first NUL. */
    constructor OfCString(s: seq<char>)
      requires exists k | 0 <= k < |s| :: s[k] == '\0'
      ensures Valid() && text == s && position == 0 && end == StrLen(s, 0)
    {
      text := s;
      position := 0;
      end := StrLen(s, 0);
    }

    /** The characters not yet taken. */
    function Remaining(): (r: string)
      requires Valid()
      reads this
      ensures |r| == end - position && forall i | 0 <= i < |r| :: r[i] == text[position + i]
    {
      text[position..end]
    }

    function Position(): nat
      reads this
    {
      position
    }

    function IsEmpty(): (b: bool)
      requires Valid()
      reads this
      ensures b <==> |Remaining()| == 0
    {
      position == end
    }

    /** Advances exactly past the whitespace at the position. */
    method SkipWhitespace()
      requires Valid()
      modifies this`position
      ensures Valid() && position == SkipEnd(text, old(position), end)
    {
      while position < end && IsWhiteSpace(text[position])
        invariant Valid() && old(position) <= position
        invariant SkipEnd(text, old(position), end) == SkipEnd(text, position, end)
        decreases end - position
      {
        position := position + 1;
      }
    }

    /** The next whitespace-delimited token, or the empty string when only whitespace remained. */
    method NextToken() returns (token: string)
      requires Valid()
      modifies this`position
      ensures Valid() && end == old(end) && old(position) <= position
      ensures var start := SkipEnd(text, old(position), end);
        position == TokenEnd(text, start, end) && token == text[start..position]
    {
      SkipWhitespace();
      var start := position;
      while position < end && !IsWhiteSpace(text[position])
        invariant Valid() && start <= position
        invariant TokenEnd(text, start, end) == TokenEnd(text, position, end)
        decreases end - position
      {
        position := position + 1;
      }
      token := text[start..position];
    }

    /** Skips leading whitespace, then moves the end back over trailing whitespace, never below the position. */
    method Trim()
      requires Valid()
      modifies this`position, this`end
      ensures Valid() && position == SkipEnd(text, old(position), old(end))
      ensures position <= end <= old(end) && AllWhiteSpace(text[end..old(end)])
      ensures end == position || !IsWhiteSpace(text[end - 1])
    {
      SkipWhitespace();
      while end > position && IsWhiteSpace(text[end - 1])
        invariant Valid() && end <= old(end)
        invariant position == SkipEnd(text, old(position), old(end))
        invariant AllWhiteSpace(text[end..old(end)])
      {
        end := end - 1;
      }
    }
  }

  // ---------------------------------------------------------------------------
  // Properties of a token, stated on the specification functions.

  /** The token is empty exactly when only whitespace remained. */
  lemma {:induction false} TokenEmptyIffOnlyWhiteSpace(text: seq<char>, from: nat, end: nat)
    requires from <= end <= |text|
    ensures var start := SkipEnd(text, from, end);
      TokenEnd(text, start, end) == start <==> AllWhiteSpace(text[from..end])
    decreases end - from
  {
    var start := SkipEnd(text, from, end);
    if start < end {
      assert text[from..end][start - from] == text[start];
    } else {
      assert text[from..end] == text[from..start];
    }
  }

  /** Taking tokens one after another from s reads s word by word: "ab  c" gives "ab" then "c", then "". */
  lemma TokensOfExample()
    ensures var t := "ab  c";
      var s1 := SkipEnd(t, 0, 5); var e1 := TokenEnd(t, s1, 5);
      var s2 := SkipEnd(t, e1, 5); var e2 := TokenEnd(t, s2, 5);
      var s3 := SkipEnd(t, e2, 5);
      t[s1..e1] == "ab" && t[s2..e2] == "c" && TokenEnd(t, s3, 5) == s3
  {
    var t := "ab  c";
    assert SkipEnd(t, 0, 5) == 0;
    assert TokenEnd(t, 0, 5) == 2;
    assert SkipEnd(t, 2, 5) == 4;
    assert TokenEnd(t, 4, 5) == 5;
  }
}
