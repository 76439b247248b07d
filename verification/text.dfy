/** String operations that both the Python service and the JavaScript code rely
    on: substring search (`in` / `includes`), `split(sep)[0]` and `split('\n')`. */
module Text {
  import opened Wrappers

  /** `sub` occurs in `s` starting at index `i`. */
  predicate OccursAt(s: string, sub: string, i: nat) {
    i + |sub| <= |s| && s[i..i + |sub|] == sub
  }

  /** The first occurrence of `sub` at index `i` or later, if any (what it
      means is stated by `IndexFromMeaning`). */
  function IndexFrom(s: string, sub: string, i: nat): (r: Option<nat>)
    requires i <= |s|
    ensures r.Some? ==> i <= r.value && r.value + |sub| <= |s|
    decreases |s| - i
  {
    if OccursAt(s, sub, i) then Some(i)
    else if i == |s| then None
    else IndexFrom(s, sub, i + 1)
  }

  /** `IndexFrom` finds an occurrence with none before it, and fails only when
      there is no occurrence at or after `i`. */
  lemma {:induction false} IndexFromMeaning(s: string, sub: string, i: nat)
    requires i <= |s|
    ensures var r := IndexFrom(s, sub, i);
      r.Some? ==> OccursAt(s, sub, r.value) && forall j: nat :: i <= j < r.value ==> !OccursAt(s, sub, j)
    ensures IndexFrom(s, sub, i).None? <==> forall j: nat :: i <= j ==> !OccursAt(s, sub, j)
    decreases |s| - i
  {
    if !OccursAt(s, sub, i) && i < |s| {
      IndexFromMeaning(s, sub, i + 1);
    }
  }

  /** The index of the first occurrence of `sub` in `s`, if any. */
  function IndexOf(s: string, sub: string): (r: Option<nat>)
    ensures r.Some? ==> r.value + |sub| <= |s|
  {
    IndexFrom(s, sub, 0)
  }

  /** `IndexOf` finds the first occurrence, and fails exactly when there is none. */
  lemma IndexOfMeaning(s: string, sub: string)
    ensures var r := IndexOf(s, sub);
      r.Some? ==> OccursAt(s, sub, r.value) && forall j: nat :: j < r.value ==> !OccursAt(s, sub, j)
    ensures IndexOf(s, sub).None? <==> forall j: nat :: !OccursAt(s, sub, j)
  {
    IndexFromMeaning(s, sub, 0);
  }

  /** Python's `sub in s` and JavaScript's `s.includes(sub)`. */
  predicate Contains(s: string, sub: string) {
    IndexOf(s, sub).Some?
  }

  /** Python's `s.split(sep)[0]`: everything before the first `sep`, or all of `s`. */
  function SplitHead(s: string, sep: string): (r: string)
    requires |sep| > 0
    ensures r == s <==> !Contains(s, sep)
    ensures r <= s
    ensures Contains(s, sep) ==> OccursAt(s, sep, |r|)
    ensures forall j: nat :: j < |r| ==> !OccursAt(s, sep, j)
  {
    IndexOfMeaning(s, sep);
    match IndexOf(s, sep)
    case None => s
    case Some(i) => s[..i]
  }

  /** The position of the first `c` in `s`, if any. */
  function FirstChar(s: string, c: char): (r: Option<nat>)
    ensures r.Some? ==> r.value < |s| && s[r.value] == c
  {
    if |s| == 0 then None
    else if s[0] == c then Some(0)
    else match FirstChar(s[1..], c)
      case None => None
      case Some(k) => Some(k + 1)
  }

  /** `FirstChar` finds the first `c`, and fails exactly when there is none. */
  lemma {:induction false} FirstCharMeaning(s: string, c: char)
    ensures var r := FirstChar(s, c);
      r.Some? ==> c !in s[..r.value]
    ensures FirstChar(s, c).None? <==> c !in s
    decreases |s|
  {
    if |s| > 0 && s[0] != c {
      FirstCharMeaning(s[1..], c);
      assert s == [s[0]] + s[1..];
      match FirstChar(s[1..], c)
      case None =>
      case Some(k) => assert s[..k + 1] == [s[0]] + s[1..][..k];
    }
  }

  /** A `c` with no `c` before it is the one `FirstChar` finds. */
  lemma FirstCharAt(s: string, c: char, k: nat)
    requires k < |s| && s[k] == c && c !in s[..k]
    ensures FirstChar(s, c) == Some(k)
  {
    FirstCharMeaning(s, c);
  }

  /** JavaScript's `s.split(sep)` for a one-character separator: the text between
      separators, so there is always one piece more than there are separators. */
  function Split(s: string, sep: char): (r: seq<string>)
    ensures |r| >= 1
    decreases |s|
  {
    match FirstChar(s, sep)
    case None => [s]
    case Some(i) => [s[..i]] + Split(s[i + 1..], sep)
  }

  /** No piece of a split holds the separator. */
  lemma {:induction false} SplitPiecesFree(s: string, sep: char)
    ensures forall k :: 0 <= k < |Split(s, sep)| ==> sep !in Split(s, sep)[k]
    decreases |s|
  {
    FirstCharMeaning(s, sep);
    match FirstChar(s, sep)
    case None =>
    case Some(i) =>
      SplitPiecesFree(s[i + 1..], sep);
      var rest := Split(s[i + 1..], sep);
      assert Split(s, sep) == [s[..i]] + rest;
      assert forall k :: 1 <= k < |Split(s, sep)| ==> Split(s, sep)[k] == rest[k - 1];
  }

  /** The inverse of `Split`: the pieces glued back with the separator between them. */
  function Join(pieces: seq<string>, sep: char): string
    requires |pieces| >= 1
  {
    if |pieces| == 1 then pieces[0] else pieces[0] + [sep] + Join(pieces[1..], sep)
  }

  /** Splitting loses nothing: joining the pieces gives the text back. */
  lemma {:induction false} JoinSplit(s: string, sep: char)
    ensures Join(Split(s, sep), sep) == s
    decreases |s|
  {
    match FirstChar(s, sep)
    case None =>
    case Some(i) =>
      var rest := Split(s[i + 1..], sep);
      var pieces := [s[..i]] + rest;
      assert pieces[0] == s[..i] && pieces[1..] == rest;
      JoinSplit(s[i + 1..], sep);
      assert Join(pieces, sep) == s[..i] + [sep] + Join(rest, sep);
      assert s == s[..i] + [sep] + s[i + 1..];
  }

  /** Splitting a piece-wise glued text recovers the pieces, when none holds the separator. */
  lemma {:induction false} SplitJoin(pieces: seq<string>, sep: char)
    requires |pieces| >= 1
    requires forall k :: 0 <= k < |pieces| ==> sep !in pieces[k]
    ensures Split(Join(pieces, sep), sep) == pieces
    decreases |pieces|
  {
    if |pieces| > 1 {
      var s := Join(pieces, sep);
      var p := pieces[0];
      var tail := Join(pieces[1..], sep);
      assert s == p + ([sep] + tail);
      assert s[|p|] == sep;
      assert s[..|p|] == p;
      FirstCharAt(s, sep, |p|);
      assert s[|p| + 1..] == tail;
      SplitJoin(pieces[1..], sep);
    } else {
      FirstCharMeaning(pieces[0], sep);
    }
  }
}
