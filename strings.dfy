/**
 * The few Python `str` built-ins the service relies on, on `seq<char>`:
 * `rfind` of one character and `"\n".join`, plus `split("\n")`, which the
 * service never calls but which is the join's inverse and so serves as its
 * reference definition.
 */
module Strings {

  /** `s.rfind(c)`: the highest index holding `c`, or -1 when there is none. */
  function RFind(s: string, c: char): (r: int)
    ensures -1 <= r < |s|
    ensures r == -1 <==> c !in s
    ensures 0 <= r ==> s[r] == c && c !in s[r + 1..]
    decreases |s|
  {
    if |s| == 0 then -1
    else if s[|s| - 1] == c then |s| - 1
    else
      assert s == s[..|s| - 1] + [s[|s| - 1]];
      RFind(s[..|s| - 1], c)
  }

  /** Any occurrence of `c` with no `c` after it is the one `RFind` reports. */
  lemma RFindIsLast(s: string, c: char, k: int)
    requires 0 <= k < |s| && s[k] == c && c !in s[k + 1..]
    ensures RFind(s, c) == k
  {
  }

  /** `"\n".join(parts)`: the parts in order, one newline between neighbours. */
  function JoinLines(parts: seq<string>): (r: string)
    ensures parts == [] ==> r == ""
    ensures parts != [] ==> parts[0] <= r
    decreases |parts|
  {
    if |parts| == 0 then ""
    else if |parts| == 1 then parts[0]
    else JoinLines(parts[..|parts| - 1]) + "\n" + parts[|parts| - 1]
  }

  /** Appending a part to a non-empty list appends a newline and the part. */
  lemma JoinAppend(front: seq<string>, last: string)
    requires |front| > 0
    ensures JoinLines(front + [last]) == JoinLines(front) + "\n" + last
  {
  }

  /** `s.split("\n")`: the pieces between newlines; never empty. */
  function SplitLines(s: string): (r: seq<string>)
    ensures |r| > 0
    ensures forall i :: 0 <= i < |r| ==> '\n' !in r[i]
    decreases |s|
  {
    var i := RFind(s, '\n');
    if i == -1 then [s] else SplitLines(s[..i]) + [s[i + 1..]]
  }

  /** Joining the pieces of a split gives back the text. */
  lemma {:induction false} JoinSplit(s: string)
    ensures JoinLines(SplitLines(s)) == s
    decreases |s|
  {
    var i := RFind(s, '\n');
    if i != -1 {
      var front, tail := SplitLines(s[..i]), s[i + 1..];
      assert SplitLines(s) == front + [tail];
      JoinSplit(s[..i]);
      JoinAppend(front, tail);
      assert JoinLines(front + [tail]) == s[..i] + "\n" + tail;
      assert s == s[..i] + "\n" + tail by {
        assert s == s[..i] + [s[i]] + s[i + 1..];
      }
    }
  }

  /**
   * Splitting a join gives back the parts, provided there is at least one
   * part and no part holds a newline of its own: the newlines of the joined
   * text are then exactly the part boundaries.
   */
  lemma {:induction false} SplitJoin(parts: seq<string>)
    requires |parts| > 0
    requires forall i :: 0 <= i < |parts| ==> '\n' !in parts[i]
    ensures SplitLines(JoinLines(parts)) == parts
    decreases |parts|
  {
    if |parts| > 1 {
      var front := parts[..|parts| - 1];
      var last := parts[|parts| - 1];
      var head := JoinLines(front);
      var s := head + "\n" + last;
      assert JoinLines(parts) == s;
      assert s[|head|] == '\n';
      assert s[|head| + 1..] == last;
      RFindIsLast(s, '\n', |head|);
      assert s[..|head|] == head;
      SplitJoin(front);
      assert front + [last] == parts;
    }
  }

  /** The pieces of every container, one container after the other. */
  function SplitEach(parts: seq<string>): seq<string>
    decreases |parts|
  {
    if |parts| == 0 then [] else SplitEach(parts[..|parts| - 1]) + SplitLines(parts[|parts| - 1])
  }

  /** The last newline of a text ends the front pieces and starts the last one. */
  lemma SplitAtLast(s: string, k: int)
    requires 0 <= k < |s| && s[k] == '\n' && '\n' !in s[k + 1..]
    ensures SplitLines(s) == SplitLines(s[..k]) + [s[k + 1..]]
  {
    RFindIsLast(s, '\n', k);
  }

  /** A newline between two texts separates their pieces and nothing else. */
  lemma {:induction false} SplitAround(a: string, b: string)
    ensures SplitLines(a + "\n" + b) == SplitLines(a) + SplitLines(b)
    decreases |b|
  {
    var s := a + "\n" + b;
    var i := RFind(b, '\n');
    if i == -1 {
      assert s[|a| + 1..] == b && s[..|a|] == a && s[|a|] == '\n';
      SplitAtLast(s, |a|);
    } else {
      var k := |a| + 1 + i;
      assert s[k] == b[i] && s[k + 1..] == b[i + 1..];
      assert s[..k] == a + "\n" + b[..i];
      SplitAtLast(s, k);
      SplitAtLast(b, i);
      SplitAround(a, b[..i]);
    }
  }

  /**
   * Splitting a join of at least one part gives each part's own pieces,
   * part after part: the joining newlines add boundaries and remove none.
   */
  lemma {:induction false} SplitJoinEach(parts: seq<string>)
    requires |parts| > 0
    ensures SplitLines(JoinLines(parts)) == SplitEach(parts)
    decreases |parts|
  {
    if |parts| > 1 {
      var front, last := parts[..|parts| - 1], parts[|parts| - 1];
      SplitJoinEach(front);
      SplitAround(JoinLines(front), last);
    } else {
      assert parts[..0] == [];
    }
  }
}
