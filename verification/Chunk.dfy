/** The recursive text splitter (rag/chunk.js). */
module Chunk {
  import opened Common
  import opened Text

  const SEPARATORS: seq<string> := ["\n\n", "\n", ". ", " ", ""]

  // ---- what is conserved -----------------------------------------------------------

  /** Characters that separators are made of, or that trimming removes. */
  predicate IsFiller(c: char) { IsSpace(c) || c == '.' }

  /** The text without white space and full stops: what splitting must conserve, in order. */
  function Essence(s: string): string {
    if s == "" then ""
    else Essence(s[..|s| - 1]) + (if IsFiller(s[|s| - 1]) then "" else [s[|s| - 1]])
  }

  ghost function Concat(parts: seq<string>): string {
    if parts == [] then "" else Concat(parts[..|parts| - 1]) + parts[|parts| - 1]
  }

  lemma {:induction false} EssenceAppend(a: string, b: string)
    ensures Essence(a + b) == Essence(a) + Essence(b)
  {
    if b == "" {
      assert a + b == a;
    } else {
      var k := |b| - 1;
      assert (a + b)[..|a + b| - 1] == a + b[..k];
      EssenceAppend(a, b[..k]);
    }
  }

  ghost predicate AllFiller(s: string) { forall i :: 0 <= i < |s| ==> IsFiller(s[i]) }

  lemma {:induction false} FillerHasNoEssence(s: string)
    requires AllFiller(s)
    ensures Essence(s) == ""
  {
    if s != "" {
      FillerHasNoEssence(s[..|s| - 1]);
    }
  }

  lemma ConcatAppend(parts: seq<string>, p: string)
    ensures Concat(parts + [p]) == Concat(parts) + p
  {
    assert (parts + [p])[..|parts|] == parts;
  }

  lemma {:induction false} TrimStartEssence(s: string)
    ensures Essence(TrimStart(s)) == Essence(s)
  {
    if s != "" && IsSpace(s[0]) {
      TrimStartEssence(s[1..]);
      assert s == s[..1] + s[1..];
      EssenceAppend(s[..1], s[1..]);
      FillerHasNoEssence(s[..1]);
    }
  }

  lemma {:induction false} TrimEndEssence(s: string)
    ensures Essence(TrimEnd(s)) == Essence(s)
  {
    if s != "" && IsSpace(s[|s| - 1]) {
      TrimEndEssence(s[..|s| - 1]);
    }
  }

  lemma TrimEssence(s: string)
    ensures Essence(Trim(s)) == Essence(s)
  {
    TrimStartEssence(s);
    TrimEndEssence(TrimStart(s));
  }

  ghost function EssenceOf(parts: seq<string>): string { Essence(Concat(parts)) }

  lemma EssenceOfAppend(parts: seq<string>, p: string)
    ensures EssenceOf(parts + [p]) == EssenceOf(parts) + Essence(p)
  {
    ConcatAppend(parts, p);
    EssenceAppend(Concat(parts), p);
  }

  /** Splitting on a separator made of filler loses only filler. */
  lemma {:induction false} SplitEssence(s: string, sep: string)
    requires sep != "" && AllFiller(sep)
    ensures EssenceOf(Split(s, sep)) == Essence(s)
    decreases |s|
  {
    var i := Find(s, sep, 0);
    if i == |s| {
      assert Split(s, sep) == [] + [s];
      EssenceOfAppend([], s);
    } else {
      var rest := s[i + |sep|..];
      SplitEssence(rest, sep);
      EssenceOfCons(s[..i], Split(rest, sep));
      ThreePieces(s, i, i + |sep|);
      EssenceAppend(s[..i] + s[i..i + |sep|], rest);
      EssenceAppend(s[..i], s[i..i + |sep|]);
      FillerHasNoEssence(sep);
    }
  }

  lemma {:induction false} EssenceOfCons(p: string, parts: seq<string>)
    ensures EssenceOf([p] + parts) == Essence(p) + EssenceOf(parts)
  {
    if parts == [] {
      assert [p] + parts == [] + [p];
      EssenceOfAppend([], p);
    } else {
      var k := |parts| - 1;
      EssenceOfCons(p, parts[..k]);
      assert [p] + parts == ([p] + parts[..k]) + [parts[k]];
      EssenceOfAppend([p] + parts[..k], parts[k]);
      assert parts == parts[..k] + [parts[k]];
      EssenceOfAppend(parts[..k], parts[k]);
    }
  }

  // ---- parts ----------------------------------------------------------------------------

  ghost predicate Bounded(parts: seq<string>, size: nat) { forall i :: 0 <= i < |parts| ==> |parts[i]| <= size }

  ghost predicate Blank(s: string) { forall i :: 0 <= i < |s| ==> IsSpace(s[i]) }

  ghost predicate NoneBlank(parts: seq<string>) { forall i :: 0 <= i < |parts| ==> !Blank(parts[i]) }

  /** What `splitRecursive` promises of its parts. */
  ghost predicate SplitOf(text: string, size: nat, parts: seq<string>) {
    Bounded(parts, size) && EssenceOf(parts) == Essence(text)
  }

  /** While packing: `seen` is the essence of the pieces taken so far. */
  ghost predicate Packing(out: seq<string>, cur: string, size: nat, seen: string) {
    Bounded(out, size) && |cur| <= size && EssenceOf(out) + Essence(cur) == seen
  }

  lemma Flush(out: seq<string>, cur: string, size: nat, seen: string)
    requires Packing(out, cur, size, seen)
    ensures Packing(out + [cur], "", size, seen)
    ensures cur == "" ==> Packing(out, "", size, seen)
  {
    EssenceOfAppend(out, cur);
  }

  lemma JoinedEssence(cur: string, sep: string, piece: string)
    requires AllFiller(sep)
    ensures Essence(cur + sep + piece) == Essence(cur) + Essence(piece)
  {
    EssenceAppend(cur + sep, piece);
    EssenceAppend(cur, sep);
    FillerHasNoEssence(sep);
  }

  /** Hard split into slices of `size` characters. */
  method SliceText(text: string, size: nat) returns (out: seq<string>)
    requires size > 0
    ensures SplitOf(text, size, out)
    ensures forall i :: 0 <= i < |out| - 1 ==> |out[i]| == size
    ensures Concat(out) == text
  {
    out := [];
    var i := 0;
    while i < |text|
      invariant 0 <= i
      invariant Concat(out) == text[..Min(i, |text|)]
      invariant Bounded(out, size)
      invariant forall k :: 0 <= k < |out| ==> out[k] != ""
      invariant i < |text| ==> forall k :: 0 <= k < |out| ==> |out[k]| == size
      invariant i >= |text| ==> forall k :: 0 <= k < |out| - 1 ==> |out[k]| == size
    {
      var end := Min(i + size, |text|);
      ConcatAppend(out, text[i..end]);
      assert text[..end] == text[..i] + text[i..end];
      out := out + [text[i..end]];
      i := i + size;
    }
    assert text[..|text|] == text;
  }

  /** `parts.map(trim).filter(Boolean)` */
  ghost function Trimmed(parts: seq<string>): seq<string> {
    if parts == [] then []
    else
      var t := Trim(parts[|parts| - 1]);
      Trimmed(parts[..|parts| - 1]) + (if t == "" then [] else [t])
  }

  lemma {:induction false} TrimmedKeeps(parts: seq<string>, size: nat)
    requires Bounded(parts, size)
    ensures Bounded(Trimmed(parts), size) && NoneBlank(Trimmed(parts))
    ensures EssenceOf(Trimmed(parts)) == EssenceOf(parts)
  {
    if parts != [] {
      var k := |parts| - 1;
      var rest, t := Trimmed(parts[..k]), Trim(parts[k]);
      TrimmedKeeps(parts[..k], size);
      assert parts == parts[..k] + [parts[k]];
      EssenceOfAppend(parts[..k], parts[k]);
      TrimEssence(parts[k]);
      if t != "" {
        assert !IsSpace(t[0]);
        EssenceOfAppend(rest, t);
      } else {
        assert Trimmed(parts) == rest;
      }
    }
  }

  method TrimAll(parts: seq<string>) returns (out: seq<string>)
    ensures out == Trimmed(parts)
  {
    out := [];
    for i := 0 to |parts|
      invariant out == Trimmed(parts[..i])
    {
      assert parts[..i + 1][..i] == parts[..i];
      var t := Trim(parts[i]);
      if t != "" {
        out := out + [t];
      }
    }
    assert parts[..|parts|] == parts;
  }

  // ---- greedy packing ---------------------------------------------------------------------

  /** The packer: finished groups and the group being filled. */
  datatype Pack = Pack(out: seq<string>, cur: string)

  /** `if (cur) out.push(cur)` */
  function Flushed(p: Pack): Pack { if p.cur == "" then p else Pack(p.out + [p.cur], "") }

  function Joined(cur: string, sep: string, piece: string): string {
    if cur == "" then piece else cur + sep + piece
  }

  ghost predicate PackOK(p: Pack, size: nat, seen: string) { Packing(p.out, p.cur, size, seen) }

  lemma FlushKeeps(p: Pack, size: nat, seen: string)
    requires PackOK(p, size, seen)
    ensures PackOK(Flushed(p), size, seen)
  {
    Flush(p.out, p.cur, size, seen);
  }

  lemma RefillKeeps(p: Pack, size: nat, seen: string, piece: string)
    requires PackOK(p, size, seen) && p.cur == "" && |piece| <= size
    ensures PackOK(p.(cur := piece), size, seen + Essence(piece))
  {
    assert EssenceOf(p.out) + Essence("") == EssenceOf(p.out);
  }

  lemma PackDone(p: Pack, size: nat, seen: string)
    requires PackOK(p, size, seen)
    ensures Bounded(Flushed(p).out, size) && EssenceOf(Flushed(p).out) == seen
  {
    FlushKeeps(p, size, seen);
    assert EssenceOf(Flushed(p).out) + Essence("") == EssenceOf(Flushed(p).out);
  }

  lemma JoinKeeps(p: Pack, size: nat, seen: string, sep: string, piece: string)
    requires PackOK(p, size, seen) && AllFiller(sep) && |Joined(p.cur, sep, piece)| <= size
    ensures PackOK(p.(cur := Joined(p.cur, sep, piece)), size, seen + Essence(piece))
  {
    if p.cur != "" {
      JoinedEssence(p.cur, sep, piece);
    }
  }

  /** No two neighbouring groups could have been joined. */
  ghost predicate Tight(groups: seq<string>, sep: string, size: nat) {
    forall i :: 0 <= i < |groups| - 1 ==> |groups[i]| + |sep| + |groups[i + 1]| > size
  }

  /** While no oversized piece has come: the finished groups are tight, and the group being filled could
      not have been joined to the last of them. */
  ghost predicate Greedy(p: Pack, sep: string, size: nat) {
    Tight(p.out, sep, size) && (p.out == [] || |p.out[|p.out| - 1]| + |sep| + |p.cur| > size)
  }

  lemma GreedyJoin(p: Pack, sep: string, size: nat, cur: string)
    requires Greedy(p, sep, size) && |cur| >= |p.cur|
    ensures Greedy(p.(cur := cur), sep, size)
  {
  }

  lemma GreedyRefill(p: Pack, sep: string, size: nat, piece: string)
    requires Greedy(p, sep, size) && |piece| <= size < |Joined(p.cur, sep, piece)|
    ensures Greedy(Flushed(p).(cur := piece), sep, size)
  {
  }

  lemma GreedyDone(p: Pack, sep: string, size: nat)
    requires Greedy(p, sep, size)
    ensures Tight(Flushed(p).out, sep, size)
  {
  }

  // ---- what the groups are made of -----------------------------------------------------------

  ghost function Flat(lists: seq<seq<string>>): seq<string> {
    if lists == [] then [] else Flat(lists[..|lists| - 1]) + lists[|lists| - 1]
  }

  /** The list without its empty strings. */
  ghost function NonEmpty(s: seq<string>): seq<string> {
    if s == [] then []
    else NonEmpty(s[..|s| - 1]) + (if s[|s| - 1] == "" then [] else [s[|s| - 1]])
  }

  lemma FlatSnoc(lists: seq<seq<string>>, last: seq<string>)
    ensures Flat(lists + [last]) == Flat(lists) + last
  {
    assert (lists + [last])[..|lists|] == lists;
  }

  lemma NonEmptySnoc(s: seq<string>, x: string)
    ensures NonEmpty(s + [x]) == NonEmpty(s) + (if x == "" then [] else [x])
  {
    assert (s + [x])[..|s|] == s;
  }

  /** Each group is some fragments joined by the separator. */
  ghost predicate JoinedBy(sep: string, groups: seq<string>, fragments: seq<seq<string>>) {
    |groups| == |fragments|
    && forall g :: 0 <= g < |groups| ==> fragments[g] != [] && groups[g] == Join(fragments[g], sep)
  }

  /** While packing: finished groups and the one being filled are fragments joined by the separator, and the
      fragments are what was taken, in order, but for empty strings. */
  ghost predicate Made(
    p: Pack, sep: string, fragments: seq<seq<string>>, last: seq<string>, taken: seq<string>)
  {
    && JoinedBy(sep, p.out, fragments)
    && (if p.cur == "" then last == [] else last != [] && p.cur == Join(last, sep))
    && NonEmpty(Flat(fragments) + last) == NonEmpty(taken)
  }

  ghost function LastAfter(p: Pack, last: seq<string>, piece: string): seq<string> {
    if p.cur != "" then last + [piece] else if piece == "" then [] else [piece]
  }

  lemma JoinMade(
    p: Pack, sep: string, fragments: seq<seq<string>>, last: seq<string>, taken: seq<string>, piece: string)
    requires sep != "" && Made(p, sep, fragments, last, taken)
    ensures Made(p.(cur := Joined(p.cur, sep, piece)), sep, fragments, LastAfter(p, last, piece), taken + [piece])
  {
    var so := Flat(fragments);
    NonEmptySnoc(taken, piece);
    NonEmptySnoc(so + last, piece);
    assert so + last + [piece] == so + (last + [piece]);
    if p.cur != "" {
      JoinSnoc(last, piece, sep);
    } else {
      assert so + [] == so;
    }
  }

  lemma JoinedBySnoc(sep: string, groups: seq<string>, fragments: seq<seq<string>>, last: seq<string>)
    requires JoinedBy(sep, groups, fragments) && last != []
    ensures JoinedBy(sep, groups + [Join(last, sep)], fragments + [last])
  {
  }

  lemma FlushMade(p: Pack, sep: string, fragments: seq<seq<string>>, last: seq<string>, taken: seq<string>)
    requires Made(p, sep, fragments, last, taken)
    ensures Made(Flushed(p), sep, if p.cur == "" then fragments else fragments + [last], [], taken)
  {
    hide JoinedBy, Join;
    if p.cur != "" {
      JoinedBySnoc(sep, p.out, fragments, last);
      FlatSnoc(fragments, last);
      assert Flat(fragments) + last + [] == Flat(fragments) + last;
    }
  }

  ghost predicate SomeOversized(pieces: seq<string>, size: nat) {
    exists i :: 0 <= i < |pieces| && |pieces[i]| > size
  }

  /** What splitting a text at one level comes to. A text that fits is one part. At the last level it is cut into
      slices of full size. At any other level its pieces are split at the next one, what they come to is joined by
      the separator into groups, in order, with only empty strings left out, and the parts are the groups,
      trimmed; where no piece is oversized no two neighbouring groups could have been joined. */
  ghost predicate Splits(text: string, size: nat, level: nat, parts: seq<string>)
    requires level <= 4
    decreases 4 - level, 1
  {
    if |text| <= size then parts == [text]
    else if level == 4 then Slices(text, size, parts)
    else
      exists groups, items, fragments ::
        && Packs(Split(text, SEPARATORS[level]), level, size, groups, items, fragments)
        && parts == Trimmed(groups) && Bounded(groups, size)
        && (!SomeOversized(Split(text, SEPARATORS[level]), size) ==> Tight(groups, SEPARATORS[level], size))
  }

  ghost predicate Slices(text: string, size: nat, parts: seq<string>) {
    && Concat(parts) == text && Bounded(parts, size)
    && forall i :: 0 <= i < |parts| - 1 ==> |parts[i]| == size
  }

  ghost predicate Packs(
    pieces: seq<string>, level: nat, size: nat, groups: seq<string>, items: seq<seq<string>>,
    fragments: seq<seq<string>>)
    requires level < 4
    decreases 4 - level, 0
  {
    && ItemsOf(pieces, level, size, items)
    && JoinedBy(SEPARATORS[level], groups, fragments) && NonEmpty(Flat(fragments)) == NonEmpty(Flat(items))
  }

  /** What each piece comes to. */
  ghost predicate ItemsOf(pieces: seq<string>, level: nat, size: nat, items: seq<seq<string>>)
    requires level < 4
    decreases 3 - level, 2
  {
    |items| == |pieces| && forall i :: 0 <= i < |pieces| ==> Splits(pieces[i], size, level + 1, items[i])
  }

  lemma ItemsSnoc(pieces: seq<string>, i: nat, level: nat, size: nat, items: seq<seq<string>>, item: seq<string>)
    requires i < |pieces| && level < 4 && ItemsOf(pieces[..i], level, size, items)
    requires Splits(pieces[i], size, level + 1, item)
    ensures ItemsOf(pieces[..i + 1], level, size, items + [item])
    ensures Flat(items + [item]) == Flat(items) + item
  {
    hide Splits, Flat;
    FlatSnoc(items, item);
    forall k | 0 <= k < i
      ensures Splits(pieces[..i + 1][k], size, level + 1, (items + [item])[k])
    {
      assert Splits(pieces[..i][k], size, level + 1, items[k]);
    }
  }

  lemma SeparatorIsFiller(i: nat)
    requires i < 5
    ensures AllFiller(SEPARATORS[i])
  {
  }

  lemma EssenceOfNext(parts: seq<string>, i: nat)
    requires i < |parts|
    ensures EssenceOf(parts[..i + 1]) == EssenceOf(parts[..i]) + Essence(parts[i])
  {
    assert parts[..i + 1] == parts[..i] + [parts[i]];
    EssenceOfAppend(parts[..i], parts[i]);
  }

  lemma NoEssence()
    ensures EssenceOf([]) == ""
  {
  }

  /** Pack the parts of an oversized piece: each joins the current group if it fits. */
  method PackSubs(p0: Pack, subs: seq<string>, sep: string, size: nat, ghost seen: string,
                  ghost fragments0: seq<seq<string>>, ghost last0: seq<string>, ghost taken: seq<string>)
    returns (p: Pack, ghost fragments: seq<seq<string>>, ghost last: seq<string>)
    requires sep != "" && AllFiller(sep) && PackOK(p0, size, seen) && Bounded(subs, size)
    requires Made(p0, sep, fragments0, last0, taken)
    ensures PackOK(p, size, seen + EssenceOf(subs)) && Made(p, sep, fragments, last, taken + subs)
  {
    hide Made, PackOK, Packing, EssenceOf;
    p, fragments, last := p0, fragments0, last0;
    ghost var now := seen;
    assert seen == seen + EssenceOf(subs[..0]) by {
      NoEssence();
    }
    assert taken + subs[..0] == taken;
    for i := 0 to |subs|
      invariant now == seen + EssenceOf(subs[..i]) && PackOK(p, size, now)
      invariant Made(p, sep, fragments, last, taken + subs[..i])
    {
      EssenceOfNext(subs, i);
      assert taken + subs[..i] + [subs[i]] == taken + subs[..i + 1];
      if p.cur != "" && |p.cur + sep + subs[i]| <= size {
        JoinKeeps(p, size, now, sep, subs[i]);
        JoinMade(p, sep, fragments, last, taken + subs[..i], subs[i]);
        last := LastAfter(p, last, subs[i]);
        p := p.(cur := p.cur + sep + subs[i]);
      } else {
        FlushKeeps(p, size, now);
        RefillKeeps(Flushed(p), size, now, subs[i]);
        FlushMade(p, sep, fragments, last, taken + subs[..i]);
        fragments := if p.cur == "" then fragments else fragments + [last];
        JoinMade(Flushed(p), sep, fragments, [], taken + subs[..i], subs[i]);
        last := LastAfter(Flushed(p), [], subs[i]);
        p := Flushed(p).(cur := subs[i]);
      }
      now := now + Essence(subs[i]);
    }
    assert subs[..|subs|] == subs;
  }

  lemma NothingPacked(pieces: seq<string>, level: nat, size: nat)
    requires level < 4
    ensures PackOK(Pack([], ""), size, EssenceOf(pieces[..0])) && Greedy(Pack([], ""), SEPARATORS[level], size)
    ensures ItemsOf(pieces[..0], level, size, []) && Made(Pack([], ""), SEPARATORS[level], [], [], Flat([]))
  {
  }

  lemma ShortSplits(text: string, size: nat, level: nat)
    requires level <= 4
    ensures |text| <= size ==> Splits(text, size, level, [text])
  {
  }

  /** Greedy packing of the pieces of one level; oversized pieces go one level down. */
  method PackPieces(pieces: seq<string>, sepIdx: nat, size: nat)
    returns (groups: seq<string>, ghost items: seq<seq<string>>, ghost fragments: seq<seq<string>>)
    requires sepIdx < 4 && size > 0
    ensures Bounded(groups, size) && EssenceOf(groups) == EssenceOf(pieces)
    ensures Packs(pieces, sepIdx, size, groups, items, fragments)
    ensures !SomeOversized(pieces, size) ==> Tight(groups, SEPARATORS[sepIdx], size)
    decreases 4 - sepIdx, 0
  {
    hide Made, PackOK, ItemsOf, Greedy, EssenceOf, Tight, Packing, Splits;
    var sep := SEPARATORS[sepIdx];
    SeparatorIsFiller(sepIdx);
    var p := Pack([], "");
    ghost var split, seen, last := false, EssenceOf(pieces[..0]), [];
    items, fragments := [], [];
    NothingPacked(pieces, sepIdx, size);
    for i := 0 to |pieces|
      invariant seen == EssenceOf(pieces[..i]) && PackOK(p, size, seen)
      invariant ItemsOf(pieces[..i], sepIdx, size, items) && Made(p, sep, fragments, last, Flat(items))
      invariant split ==> SomeOversized(pieces, size)
      invariant split || Greedy(p, sep, size)
    {
      var piece := pieces[i];
      EssenceOfNext(pieces, i);
      ghost var taken, item := Flat(items), [piece];
      ShortSplits(piece, size, sepIdx + 1);
      if |Joined(p.cur, sep, piece)| <= size {
        JoinKeeps(p, size, seen, sep, piece);
        JoinMade(p, sep, fragments, last, taken, piece);
        if !split {
          GreedyJoin(p, sep, size, Joined(p.cur, sep, piece));
        }
        last := LastAfter(p, last, piece);
        p := p.(cur := Joined(p.cur, sep, piece));
      } else {
        FlushKeeps(p, size, seen);
        FlushMade(p, sep, fragments, last, taken);
        fragments, last := if p.cur == "" then fragments else fragments + [last], [];
        if |piece| <= size {
          RefillKeeps(Flushed(p), size, seen, piece);
          JoinMade(Flushed(p), sep, fragments, last, taken, piece);
          if !split {
            GreedyRefill(p, sep, size, piece);
          }
          last := LastAfter(Flushed(p), last, piece);
          p := Flushed(p).(cur := piece);
        } else {
          split := true;
          assert SomeOversized(pieces, size);
          var subs := SplitRecursive(piece, size, sepIdx + 1);
          p, fragments, last := PackSubs(Flushed(p), subs, sep, size, seen, fragments, last, taken);
          item := subs;
        }
      }
      ItemsSnoc(pieces, i, sepIdx, size, items, item);
      items, seen := items + [item], seen + Essence(piece);
    }
    assert pieces[..|pieces|] == pieces;
    PackDone(p, size, seen);
    FlushMade(p, sep, fragments, last, Flat(items));
    fragments := if p.cur == "" then fragments else fragments + [last];
    MadeGroups(Flushed(p), sep, fragments, Flat(items));
    if !split {
      GreedyDone(p, sep, size);
    }
    groups := Flushed(p).out;
  }

  lemma MadeGroups(p: Pack, sep: string, fragments: seq<seq<string>>, taken: seq<string>)
    requires Made(p, sep, fragments, [], taken)
    ensures JoinedBy(sep, p.out, fragments) && NonEmpty(Flat(fragments)) == NonEmpty(taken)
  {
    assert Flat(fragments) + [] == Flat(fragments);
  }

  /** `splitRecursive`: every part fits; nothing but white space and full stops is lost or added and
      the order is kept; below the last level no part is blank, and the parts are the trimmed groups of
      a greedy packing. */
  method SplitRecursive(text: string, size: nat, sepIdx: nat) returns (parts: seq<string>)
    requires size > 0 && sepIdx <= 4
    ensures SplitOf(text, size, parts)
    ensures Splits(text, size, sepIdx, parts)
    ensures |text| > size && sepIdx < 4 ==> NoneBlank(parts)
    decreases 4 - sepIdx, 1
  {
    hide Packs, Tight, EssenceOf;
    if |text| <= size {
      parts := [text];
      OnePart(text);
      return;
    }
    if sepIdx == 4 {
      parts := SliceText(text, size);
      return;
    }
    var pieces := Split(text, SEPARATORS[sepIdx]);
    SplitEssence(text, SEPARATORS[sepIdx]);
    ghost var items, fragments;
    var groups;
    groups, items, fragments := PackPieces(pieces, sepIdx, size);
    TrimmedKeeps(groups, size);
    parts := TrimAll(groups);
  }

  lemma OnePart(text: string)
    ensures EssenceOf([text]) == Essence(text)
  {
    assert [text] == [] + [text];
    EssenceOfAppend([], text);
  }

  // ---- overlap -----------------------------------------------------------------------------------

  /** The last `overlap` characters of `prev`, or all of it. */
  function Tail(prev: string, overlap: nat): string { prev[Max(0, |prev| - overlap)..] }

  /** A tail that does not end in a space or line break is set off by one space. */
  function Gap(tail: string): string {
    if tail != "" && (tail[|tail| - 1] == '\n' || tail[|tail| - 1] == ' ') then "" else " "
  }

  /** Chunk `i > 0` is the last `overlap` characters of the part before it (all of it if it is shorter), a space
      unless these end in a space or line break, then its own part. */
  ghost predicate Overlapped(parts: seq<string>, overlap: nat, chunks: seq<string>) {
    && |chunks| == |parts|
    && (parts != [] ==> chunks[0] == parts[0])
    && forall i :: 0 < i < |parts| ==> Carries(chunks[i], parts[i - 1], overlap, parts[i])
  }

  ghost predicate Carries(chunk: string, prev: string, overlap: nat, part: string) {
    exists tail, gap ::
      chunk == tail + gap + part && IsSuffix(tail, prev) && |tail| == Min(overlap, |prev|) && Separates(tail, gap)
  }

  lemma TailCarries(prev: string, overlap: nat, part: string)
    ensures Carries(Tail(prev, overlap) + Gap(Tail(prev, overlap)) + part, prev, overlap, part)
  {
    var tail := Tail(prev, overlap);
    assert IsSuffix(tail, prev) && Separates(tail, Gap(tail));
  }

  ghost predicate Separates(tail: string, gap: string) {
    gap == if tail != "" && tail[|tail| - 1] in {' ', '\n'} then "" else " "
  }

  ghost predicate IsSuffix(a: string, b: string) { |a| <= |b| && b[|b| - |a|..] == a }

  method ApplyOverlap(parts: seq<string>, overlap: nat) returns (chunks: seq<string>)
    ensures overlap == 0 || |parts| < 2 ==> chunks == parts
    ensures overlap > 0 ==> Overlapped(parts, overlap, chunks)
    ensures overlap > 0 ==> forall i :: 0 < i < |parts| ==>
              chunks[i] == Tail(parts[i - 1], overlap) + Gap(Tail(parts[i - 1], overlap)) + parts[i]
  {
    hide Carries;
    if overlap <= 0 || |parts| < 2 {
      return parts;
    }
    chunks := [parts[0]];
    for i := 1 to |parts|
      invariant |chunks| == i && chunks[0] == parts[0]
      invariant forall k :: 0 < k < i ==>
                  chunks[k] == Tail(parts[k - 1], overlap) + Gap(Tail(parts[k - 1], overlap)) + parts[k]
    {
      var tail := Tail(parts[i - 1], overlap);
      chunks := chunks + [tail + Gap(tail) + parts[i]];
    }
    forall i | 0 < i < |parts|
      ensures Carries(chunks[i], parts[i - 1], overlap, parts[i])
    {
      TailCarries(parts[i - 1], overlap, parts[i]);
    }
  }

  lemma OverlapBound(parts: seq<string>, overlap: nat, chunks: seq<string>, size: nat, i: nat)
    requires Bounded(parts, size) && Overlapped(parts, overlap, chunks) && i < |chunks|
    ensures |chunks[i]| <= size + overlap + 1
  {
    if i > 0 {
      assert Carries(chunks[i], parts[i - 1], overlap, parts[i]);
    }
  }

  // ---- chunkText ----------------------------------------------------------------------------------

  /** `\r\n` becomes `\n`. */
  function Normalise(s: string): (r: string)
    ensures |r| <= |s|
  {
    if s == "" then ""
    else if |s| >= 2 && s[0] == '\r' && s[1] == '\n' then "\n" + Normalise(s[2..])
    else [s[0]] + Normalise(s[1..])
  }

  lemma NormaliseStep(s: string)
    requires s != "" && !Occurs(s, "\r\n", 0)
    ensures Normalise(s) == [s[0]] + Normalise(s[1..])
  {
    assert |s| >= 2 ==> s[0..2] == [s[0], s[1]];
  }

  lemma OccursLater(s: string, sep: string, k: nat)
    requires s != ""
    ensures Occurs(s[1..], sep, k) <==> Occurs(s, sep, k + 1)
  {
    assert k + 1 + |sep| <= |s| ==> s[1..][k..k + |sep|] == s[k + 1..k + 1 + |sep|];
  }

  lemma {:induction false} NormaliseFrom(s: string, i: nat)
    requires i <= |s| && forall k :: 0 <= k < i ==> !Occurs(s, "\r\n", k)
    ensures Normalise(s) == s[..i] + Normalise(s[i..])
    decreases i
  {
    hide Normalise, Occurs;
    if i == 0 {
      assert s[0..] == s;
    } else {
      NormaliseStep(s);
      forall k | 0 <= k < i - 1
        ensures !Occurs(s[1..], "\r\n", k)
      {
        OccursLater(s, "\r\n", k);
      }
      NormaliseFrom(s[1..], i - 1);
      assert s[1..][i - 1..] == s[i..];
      assert [s[0]] + s[1..][..i - 1] == s[..i];
    }
  }

  /** Normalising puts one line feed in the place of every CR-LF pair, and changes nothing else. */
  lemma {:induction false} NormaliseExact(s: string)
    ensures Normalise(s) == Join(Split(s, "\r\n"), "\n")
    decreases |s|
  {
    var i := Find(s, "\r\n", 0);
    NormaliseFrom(s, i);
    if i == |s| {
      assert s[..i] == s && s[i..] == "";
    } else {
      var rest := s[i + 2..];
      NormaliseExact(rest);
      assert s[i..][0] == s[i..i + 2][0] && s[i..][1] == s[i..i + 2][1] && s[i..][2..] == rest;
      JoinCons(s[..i], Split(rest, "\r\n"), "\n");
    }
  }

  /** `chunkText`. A short text is one trimmed chunk, or none. Otherwise, with `size` at least 50, the
      parts before overlap fit in `size` and conserve the text; every chunk fits in `size`, the clamped
      overlap and one space. */
  method ChunkText(text: string, chunkSize: int, overlap: int) returns (chunks: seq<string>, ghost parts: seq<string>)
    ensures text == "" ==> chunks == []
    ensures text != "" && |Normalise(text)| <= chunkSize ==> chunks == Trimmed([Normalise(text)])
    ensures text != "" && |Normalise(text)| > chunkSize ==>
              && SplitOf(Normalise(text), Max(50, chunkSize), parts)
              && Splits(Normalise(text), Max(50, chunkSize), 0, parts)
              && (|Normalise(text)| > Max(50, chunkSize) ==> NoneBlank(parts))
              && (if Min(overlap, chunkSize - 1) <= 0 then chunks == parts
                  else Overlapped(parts, Min(overlap, chunkSize - 1), chunks))
              && Bounded(chunks, Max(50, chunkSize) + Max(0, Min(overlap, chunkSize - 1)) + 1)
  {
    parts := [];
    if text == "" {
      return [], [];
    }
    var clean := Normalise(text);
    if |clean| <= chunkSize {
      chunks := TrimAll([clean]);
      return;
    }
    var size := Max(50, chunkSize);
    var clamped := Max(0, Min(overlap, chunkSize - 1));
    var split := SplitRecursive(clean, size, 0);
    parts := split;
    chunks := ApplyOverlap(split, clamped);
    forall i | 0 <= i < |chunks|
      ensures |chunks[i]| <= size + clamped + 1
    {
      if clamped > 0 {
        OverlapBound(parts, clamped, chunks, size, i);
      }
    }
  }
}
