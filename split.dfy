/** Go's `strings.Split(s, ":")` and `strings.Join(parts, ":")`, which the
    project store uses to take a composite `cluster:project` id apart. */
module ColonSplit {

  /** `strings.Split(s, ":")`: the pieces between colons, always at least one
      (the empty string splits to `[""]`). */
  function Split(s: string): (parts: seq<string>)
    ensures |parts| >= 1
    ensures forall i :: 0 <= i < |parts| ==> ':' !in parts[i]
    ensures |parts| == 1 <==> ':' !in s
    decreases |s|
  {
    assert |s| > 0 ==> s == [s[0]] + s[1..];
    if |s| == 0 then [""]
    else if s[0] == ':' then [""] + Split(s[1..])
    else
      var rest := Split(s[1..]);
      [[s[0]] + rest[0]] + rest[1..]
  }

  /** `strings.Join(parts, ":")`. */
  function Join(parts: seq<string>): string
    requires |parts| >= 1
    decreases |parts|
  {
    if |parts| == 1 then parts[0] else parts[0] + ":" + Join(parts[1..])
  }

  /** Glueing text to the front of the first piece glues it to the front of
      the join. */
  lemma {:induction false} JoinPrepend(prefix: string, parts: seq<string>)
    requires |parts| >= 1
    ensures Join([prefix + parts[0]] + parts[1..]) == prefix + Join(parts)
  {
    var glued := [prefix + parts[0]] + parts[1..];
    if |parts| > 1 {
      var rest := Join(parts[1..]);
      assert glued[0] == prefix + parts[0] && glued[1..] == parts[1..];
      assert Join(glued) == glued[0] + ":" + rest;
      assert Join(parts) == parts[0] + ":" + rest;
      assert (prefix + parts[0]) + ":" + rest == prefix + (parts[0] + ":" + rest);
    } else {
      assert |glued| == 1;
    }
  }

  /** Joining the pieces gives back the string that was split. */
  lemma {:induction false} JoinSplit(s: string)
    ensures Join(Split(s)) == s
    decreases |s|
  {
    if |s| == 0 {
    } else if s[0] == ':' {
      JoinSplit(s[1..]);
      assert s == ":" + s[1..];
    } else {
      JoinSplit(s[1..]);
      JoinPrepend([s[0]], Split(s[1..]));
      assert s == [s[0]] + s[1..];
    }
  }

  /** One step of `Split` on a string with a known first character. */
  lemma SplitCons(c: char, s: string)
    ensures c == ':' ==> Split([c] + s) == [""] + Split(s)
    ensures c != ':' ==> Split([c] + s) == [[c] + Split(s)[0]] + Split(s)[1..]
  {
    assert ([c] + s)[0] == c && ([c] + s)[1..] == s;
  }

  /** Splitting colon-free pieces after joining them gives back the pieces. */
  lemma {:induction false} SplitJoin(parts: seq<string>)
    requires |parts| >= 1
    requires forall i :: 0 <= i < |parts| ==> ':' !in parts[i]
    ensures Split(Join(parts)) == parts
    decreases |parts|, |parts[0]|
  {
    if |parts[0]| == 0 {
      if |parts| > 1 {
        SplitJoin(parts[1..]);
        assert Join(parts) == [':'] + Join(parts[1..]);
        SplitCons(':', Join(parts[1..]));
        assert parts == [""] + parts[1..];
      }
    } else {
      var c := parts[0][0];
      var tail := [parts[0][1..]] + parts[1..];
      assert tail[1..] == parts[1..];
      assert forall i :: 1 <= i < |tail| ==> tail[i] == parts[i];
      assert ':' !in tail[0];
      SplitJoin(tail);
      assert [c] + tail[0] == parts[0];
      assert parts == [parts[0]] + parts[1..];
      assert parts == [[c] + tail[0]] + tail[1..];
      JoinPrepend([c], tail);
      assert c != ':' by { assert c in parts[0]; }
      SplitCons(c, Join(tail));
    }
  }

  /** The first piece is the longest colon-free prefix of `s`. */
  lemma {:induction false} SplitFirst(s: string)
    ensures var first := Split(s)[0];
      |first| <= |s| && s[..|first|] == first &&
      (|first| == |s| || s[|first|] == ':')
    decreases |s|
  {
    if |s| > 0 && s[0] != ':' {
      SplitFirst(s[1..]);
    }
  }

  /** The last piece is the longest colon-free suffix of `s`, and it is the
      whole of `s` exactly when `s` holds no colon. */
  lemma {:induction false} SplitLast(s: string)
    ensures var parts := Split(s); var last := parts[|parts| - 1];
      |last| <= |s| && s[|s| - |last|..] == last &&
      (|last| == |s| || s[|s| - |last| - 1] == ':') &&
      (|last| == |s| <==> ':' !in s)
    decreases |s|
  {
    if |s| > 0 {
      SplitLast(s[1..]);
      var rest := Split(s[1..]);
      var parts := Split(s);
      var last := parts[|parts| - 1];
      if s[0] == ':' {
        assert last == rest[|rest| - 1];
        assert s[0] in s;
      } else if |rest| == 1 {
        assert s == [s[0]] + s[1..];
        assert last == [s[0]] + rest[0] == s;
      } else {
        assert last == rest[|rest| - 1];
        assert ':' in s[1..];
        assert s[1..][|s| - 1 - |last|..] == s[|s| - |last|..];
        assert s[1..][|s| - 1 - |last| - 1] == s[|s| - |last| - 1];
        assert s[|s| - |last| - 1] in s;
      }
    }
  }
}
