/** The JavaScript string operations the model needs: `split` on a non-empty separator and `trim`.
    One `char` stands for one UTF-16 code unit. */
module Text {
  /** The white space that `String.prototype.trim` removes. */
  predicate IsSpace(c: char) {
    || '\U{9}' <= c <= '\U{D}' || c == ' ' || c == '\U{A0}' || c == '\U{1680}'
    || '\U{2000}' <= c <= '\U{200A}' || c == '\U{2028}' || c == '\U{2029}'
    || c == '\U{202F}' || c == '\U{205F}' || c == '\U{3000}' || c == '\U{FEFF}'
  }

  function TrimStart(s: string): (r: string)
    ensures |r| <= |s|
    ensures r == "" || !IsSpace(r[0])
  {
    if s != "" && IsSpace(s[0]) then TrimStart(s[1..]) else s
  }

  function TrimEnd(s: string): (r: string)
    ensures |r| <= |s|
    ensures r == "" || !IsSpace(r[|r| - 1])
    ensures r != "" ==> r[0] == s[0]
  {
    if s != "" && IsSpace(s[|s| - 1]) then TrimEnd(s[..|s| - 1]) else s
  }

  function Trim(s: string): (r: string)
    ensures |r| <= |s|
    ensures r == "" || (!IsSpace(r[0]) && !IsSpace(r[|r| - 1]))
  {
    TrimEnd(TrimStart(s))
  }

  predicate Occurs(s: string, sep: string, k: nat) {
    k + |sep| <= |s| && s[k..k + |sep|] == sep
  }

  /** The first position at or after `i` where `sep` occurs, or `|s|` when there is none. */
  function Find(s: string, sep: string, i: nat): (r: nat)
    requires sep != "" && i <= |s|
    ensures i <= r <= |s|
    ensures r < |s| ==> Occurs(s, sep, r)
    ensures forall k :: i <= k < r ==> !Occurs(s, sep, k)
    decreases |s| - i
  {
    if i + |sep| > |s| then |s|
    else if Occurs(s, sep, i) then i
    else Find(s, sep, i + 1)
  }

  /** `s.split(sep)` */
  function Split(s: string, sep: string): (r: seq<string>)
    requires sep != ""
    ensures |r| >= 1
    decreases |s|
  {
    var i := Find(s, sep, 0);
    if i == |s| then [s] else [s[..i]] + Split(s[i + |sep|..], sep)
  }

  ghost function Join(parts: seq<string>, sep: string): string
    requires |parts| >= 1
  {
    if |parts| == 1 then parts[0] else parts[0] + sep + Join(parts[1..], sep)
  }

  lemma ThreePieces(s: string, i: nat, j: nat)
    requires i <= j <= |s|
    ensures s == s[..i] + s[i..j] + s[j..]
  {
  }

  lemma JoinCons(first: string, rest: seq<string>, sep: string)
    requires |rest| >= 1
    ensures Join([first] + rest, sep) == first + sep + Join(rest, sep)
  {
    assert ([first] + rest)[1..] == rest;
  }

  lemma {:induction false} JoinSnoc(parts: seq<string>, last: string, sep: string)
    requires parts != []
    ensures Join(parts + [last], sep) == Join(parts, sep) + sep + last
  {
    if |parts| > 1 {
      JoinSnoc(parts[1..], last, sep);
      JoinCons(parts[0], parts[1..] + [last], sep);
      assert [parts[0]] + (parts[1..] + [last]) == parts + [last];
    } else {
      JoinCons(parts[0], [last], sep);
      assert [parts[0]] + [last] == parts + [last];
    }
  }

  /** Splitting loses nothing: joining the pieces with the separator gives the text back. */
  lemma {:induction false} JoinSplit(s: string, sep: string)
    requires sep != ""
    ensures Join(Split(s, sep), sep) == s
    decreases |s|
  {
    var i := Find(s, sep, 0);
    if i < |s| {
      var rest := s[i + |sep|..];
      JoinSplit(rest, sep);
      JoinCons(s[..i], Split(rest, sep), sep);
      ThreePieces(s, i, i + |sep|);
    }
  }

  /** A piece ends at the first place where the separator comes. */
  ghost predicate EndsFirst(piece: string, sep: string) {
    forall k :: 0 <= k < |piece| ==> !Occurs(piece + sep, sep, k)
  }

  ghost predicate FreeOf(piece: string, sep: string) { forall k :: 0 <= k ==> !Occurs(piece, sep, k) }

  lemma FreeWhenEndsFirst(piece: string, sep: string)
    requires sep != "" && EndsFirst(piece, sep)
    ensures FreeOf(piece, sep)
  {
    forall k | 0 <= k
      ensures !Occurs(piece, sep, k)
    {
      if Occurs(piece, sep, k) {
        assert (piece + sep)[k..k + |sep|] == piece[k..k + |sep|];
        assert Occurs(piece + sep, sep, k);
      }
    }
  }

  ghost predicate Leftmost(pieces: seq<string>, sep: string) {
    && (forall i :: 0 <= i < |pieces| - 1 ==> EndsFirst(pieces[i], sep))
    && (forall i :: 0 <= i < |pieces| ==> FreeOf(pieces[i], sep))
  }

  lemma LeftmostCons(piece: string, rest: seq<string>, sep: string)
    requires sep != "" && EndsFirst(piece, sep) && Leftmost(rest, sep)
    ensures Leftmost([piece] + rest, sep)
  {
    FreeWhenEndsFirst(piece, sep);
  }

  /** Each piece but the last ends at the first separator that follows its start, and the last holds none:
      with `JoinSplit` this leaves one list of pieces. */
  lemma {:induction false} SplitLeftmost(s: string, sep: string)
    requires sep != ""
    ensures Leftmost(Split(s, sep), sep)
    decreases |s|
  {
    hide Leftmost;
    var i := Find(s, sep, 0);
    if i < |s| {
      SplitLeftmost(s[i + |sep|..], sep);
      FirstPiece(s, sep, i);
      LeftmostCons(s[..i], Split(s[i + |sep|..], sep), sep);
    } else {
      WholePiece(s, sep);
    }
  }

  lemma FirstPiece(s: string, sep: string, i: nat)
    requires sep != "" && Occurs(s, sep, i) && forall k :: 0 <= k < i ==> !Occurs(s, sep, k)
    ensures EndsFirst(s[..i], sep)
  {
    assert s[..i + |sep|] == s[..i] + sep;
    forall k | 0 <= k < i
      ensures !Occurs(s[..i] + sep, sep, k)
    {
      assert s[..i + |sep|][k..k + |sep|] == s[k..k + |sep|] || k + |sep| > i + |sep|;
      assert !Occurs(s, sep, k);
    }
  }

  lemma WholePiece(s: string, sep: string)
    requires sep != "" && forall k :: 0 <= k < |s| ==> !Occurs(s, sep, k)
    ensures Leftmost([s], sep)
  {
    forall k | 0 <= k
      ensures !Occurs(s, sep, k)
    {
    }
  }

  lemma {:induction false} TrimStartExact(s: string) returns (i: nat)
    ensures i <= |s| && TrimStart(s) == s[i..] && forall k :: 0 <= k < i ==> IsSpace(s[k])
  {
    i := 0;
    if s != "" && IsSpace(s[0]) {
      i := TrimStartExact(s[1..]);
      i := i + 1;
      assert forall k :: 1 <= k < i ==> s[k] == s[1..][k - 1];
    }
  }

  lemma {:induction false} TrimEndExact(s: string) returns (j: nat)
    ensures j <= |s| && TrimEnd(s) == s[..j] && forall k :: j <= k < |s| ==> IsSpace(s[k])
  {
    j := |s|;
    if s != "" && IsSpace(s[|s| - 1]) {
      j := TrimEndExact(s[..|s| - 1]);
    }
  }

  /** Trimming takes white space off both ends, all of it, and nothing else. */
  lemma TrimExact(s: string)
    ensures exists i, j :: 0 <= i <= j <= |s| && Trim(s) == s[i..j]
              && (forall k :: 0 <= k < i || j <= k < |s| ==> IsSpace(s[k]))
    ensures Trim(s) == "" || (!IsSpace(Trim(s)[0]) && !IsSpace(Trim(s)[|Trim(s)| - 1]))
  {
    var i := TrimStartExact(s);
    var j := TrimEndExact(TrimStart(s));
    assert Trim(s) == s[i..i + j];
    forall k | 0 <= k < i || i + j <= k < |s|
      ensures IsSpace(s[k])
    {
      if k >= i + j {
        assert s[k] == TrimStart(s)[k - i];
      }
    }
  }
}
