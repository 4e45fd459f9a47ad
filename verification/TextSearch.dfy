// Searching strings the way includes, split and replace do.
module TextSearch {
  predicate StartsWith(text: string, pattern: string) {
    |pattern| <= |text| && forall i :: 0 <= i < |pattern| ==> text[i] == pattern[i]
  }

  // `text.includes(pattern)`.
  predicate Includes(text: string, pattern: string) {
    StartsWith(text, pattern) || (text != "" && Includes(text[1..], pattern))
  }

  // How often `text.split(pattern)` cuts: the occurrences from the left, without overlap.
  function Occurrences(text: string, pattern: string): nat
    requires pattern != ""
  {
    if text == "" then 0
    else if StartsWith(text, pattern) then 1 + Occurrences(text[|pattern|..], pattern)
    else Occurrences(text[1..], pattern)
  }

  // `text.replace(pattern, "")`: the first occurrence goes.
  function WithoutFirst(text: string, pattern: string): string {
    if StartsWith(text, pattern) then text[|pattern|..]
    else if text == "" then ""
    else [text[0]] + WithoutFirst(text[1..], pattern)
  }

  lemma {:induction false} IncludesIffOccurs(text: string, pattern: string)
    requires pattern != ""
    ensures Includes(text, pattern) <==> Occurrences(text, pattern) > 0
  {
    if text != "" && !StartsWith(text, pattern) { IncludesIffOccurs(text[1..], pattern); }
  }

  // An occurrence does not reach across a character that the pattern does not have.
  lemma StartsBeforeSeparator(front: string, c: char, rest: string, pattern: string)
    requires c !in pattern
    ensures StartsWith(front + [c] + rest, pattern) <==> StartsWith(front, pattern)
  {
    var text := front + [c] + rest;
    assert text[|front|] == c;
    assert |front| < |pattern| ==> pattern[|front|] in pattern;
    assert forall i :: 0 <= i < |front| ==> text[i] == front[i];
  }

  lemma {:induction false} SeparatorSplits(front: string, c: char, rest: string, pattern: string)
    requires pattern != "" && c !in pattern
    ensures Occurrences(front + [c] + rest, pattern) == Occurrences(front, pattern) + Occurrences(rest, pattern)
  {
    var text := front + [c] + rest;
    StartsBeforeSeparator(front, c, rest, pattern);
    if front == "" {
      assert text[1..] == rest;
    } else if StartsWith(front, pattern) {
      assert text[|pattern|..] == front[|pattern|..] + [c] + rest;
      SeparatorSplits(front[|pattern|..], c, rest, pattern);
    } else {
      assert text[1..] == front[1..] + [c] + rest;
      SeparatorSplits(front[1..], c, rest, pattern);
    }
  }

  // A text that lacks one of the pattern's characters does not have the pattern.
  lemma {:induction false} MissingCharacter(text: string, pattern: string, c: char)
    requires c in pattern && c !in text
    ensures Occurrences(text, pattern) == 0
  {
    if text != "" {
      var i :| 0 <= i < |pattern| && pattern[i] == c;
      assert i < |text| ==> text[i] in text;
      assert forall x :: x in text[1..] ==> x in text;
      MissingCharacter(text[1..], pattern, c);
    }
  }

  lemma {:induction false} OccursAtStart(rest: string, pattern: string)
    requires pattern != ""
    ensures Occurrences(pattern + rest, pattern) == 1 + Occurrences(rest, pattern)
  {
    assert (pattern + rest)[|pattern|..] == rest;
  }

  lemma PatternStarts(pattern: string, rest: string)
    ensures StartsWith(pattern + rest, pattern) && (pattern + rest)[|pattern|..] == rest
  {
  }

  // If the pattern does not start within `front`, its first occurrence is the one after.
  lemma {:induction false} FirstIsRemoved(text: string, front: string, pattern: string, rest: string)
    requires text == front + pattern + rest
    requires forall i :: 0 <= i < |front| ==> !StartsWith(text[i..], pattern)
    ensures WithoutFirst(text, pattern) == front + rest
    ensures Includes(text, pattern)
  {
    hide StartsWith;
    if front == "" {
      PatternStarts(pattern, rest);
      assert text == pattern + rest && front + rest == rest;
    } else {
      assert text[0..] == text;
      var tail := text[1..];
      assert tail == front[1..] + pattern + rest;
      forall i | 0 <= i < |front| - 1 ensures !StartsWith(tail[i..], pattern) {
        assert tail[i..] == text[i + 1..];
      }
      FirstIsRemoved(tail, front[1..], pattern, rest);
      assert [front[0]] + (front[1..] + rest) == front + rest;
    }
  }

  lemma BlockCharacter(c: char, marker: string, after: string, j: int)
    ensures 0 <= j < |marker| ==> ([c] + marker + after)[1 + j] == marker[j]
  {
  }

  lemma MarkerEndsInFront(front: string, c: char, marker: string, after: string, rest: string, i: nat)
    requires c !in marker && i < |front|
    requires StartsWith((front + ([c] + marker + after) + rest)[i..], [c] + marker + after)
    ensures i + 1 + |marker| <= |front|
  {
    var block := [c] + marker + after;
    var text := front + block + rest;
    var j := |front| - i - 1;
    assert text[|front|] == c && text[i..][1 + j] == text[|front|];
    BlockCharacter(c, marker, after, j);
  }

  // A block is a separator, a marker without it, and more. Where a block starts before the
  // end of `front`, and another one follows, the marker is in `front`.
  lemma {:induction false} EarlierBlockHasMarker(front: string, c: char, marker: string, after: string, rest: string,
                                                 i: nat)
    requires c !in marker && i < |front|
    requires StartsWith((front + ([c] + marker + after) + rest)[i..], [c] + marker + after)
    ensures Includes(front, marker)
  {
    MarkerEndsInFront(front, c, marker, after, rest, i);
    var block := [c] + marker + after;
    var tail := (front + block + rest)[i..];
    var inner := front[i + 1..];
    forall j | 0 <= j < |marker| ensures inner[j] == marker[j] {
      assert block[1 + j] == marker[j] && tail[1 + j] == inner[j];
    }
    SuffixOccurs(front, i + 1, marker);
  }

  lemma {:induction false} SuffixOccurs(text: string, i: nat, pattern: string)
    requires i <= |text| && Includes(text[i..], pattern)
    ensures Includes(text, pattern)
  {
    if i > 0 {
      assert text[1..][i - 1..] == text[i..];
      SuffixOccurs(text[1..], i - 1, pattern);
    } else {
      assert text[0..] == text;
    }
  }
}
