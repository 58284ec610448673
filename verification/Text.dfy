/** Splitting text at a separator and joining it again. */
module Text {

  function Split(s: string, sep: char): (parts: seq<string>)
    ensures parts != []
  {
    if s == "" then [""]
    else
      var init, last := Split(s[..|s| - 1], sep), s[|s| - 1];
      if last == sep then init + [""] else init[..|init| - 1] + [init[|init| - 1] + [last]]
  }

  function Join(parts: seq<string>, sep: char): string
  {
    if parts == [] then ""
    else if |parts| == 1 then parts[0]
    else Join(parts[..|parts| - 1], sep) + [sep] + parts[|parts| - 1]
  }

  lemma SplitNext(s: string, c: char, sep: char)
    ensures var p := Split(s, sep);
            Split(s + [c], sep) == if c == sep then p + [""] else p[..|p| - 1] + [p[|p| - 1] + [c]]
  {
    assert (s + [c])[..|s|] == s;
  }

  lemma JoinLast(parts: seq<string>, x: string, sep: char)
    requires parts != []
    ensures Join(parts + [x], sep) == Join(parts, sep) + [sep] + x
  {
    assert (parts + [x])[..|parts|] == parts;
  }

  lemma JoinExtends(front: seq<string>, x: string, c: char, sep: char)
    ensures Join(front + [x + [c]], sep) == Join(front + [x], sep) + [c]
  {
    if front != [] {
      JoinLast(front, x, sep);
      JoinLast(front, x + [c], sep);
      hide Join;
      assert Join(front, sep) + [sep] + (x + [c]) == Join(front, sep) + [sep] + x + [c];
    }
  }

  /** Joining the parts gives the text back, so different texts have different parts. */
  lemma {:induction false} JoinSplit(s: string, sep: char)
    ensures Join(Split(s, sep), sep) == s
  {
    if s != "" {
      var init, c := s[..|s| - 1], s[|s| - 1];
      var p := Split(init, sep);
      JoinSplit(init, sep);
      SplitNext(init, c, sep);
      hide Split, Join;
      assert s == init + [c];
      if c == sep {
        JoinLast(p, "", sep);
      } else {
        JoinExtends(p[..|p| - 1], p[|p| - 1], c, sep);
        assert p == p[..|p| - 1] + [p[|p| - 1]];
      }
    }
  }

  /** Text appended without separators extends the last part. */
  lemma {:induction false} SplitExtends(s: string, t: string, sep: char)
    requires sep !in t
    ensures var p := Split(s, sep); Split(s + t, sep) == p[..|p| - 1] + [p[|p| - 1] + t]
  {
    hide Split;
    var p := Split(s, sep);
    if t == "" {
      assert s + t == s && p[|p| - 1] + t == p[|p| - 1];
      assert p == p[..|p| - 1] + [p[|p| - 1]];
    } else {
      var init, last := t[..|t| - 1], t[|t| - 1];
      SplitExtends(s, init, sep);
      assert s + t == s + init + [last];
      SplitNext(s + init, last, sep);
      assert p[|p| - 1] + init + [last] == p[|p| - 1] + t;
    }
  }

  /** Text without separators is its own only part. */
  lemma SplitWhole(t: string, sep: char)
    requires sep !in t
    ensures Split(t, sep) == [t]
  {
    SplitExtends("", t, sep);
    assert "" + t == t;
  }

  lemma LastReplaced(init: seq<string>, last: string)
    ensures var p := init + [""]; p[..|p| - 1] + [p[|p| - 1] + last] == init + [last]
  {
    assert "" + last == last;
  }

  /** Splitting undoes joining, when no part contains the separator. */
  lemma {:induction false} SplitJoin(parts: seq<string>, sep: char)
    requires parts != [] && forall i :: 0 <= i < |parts| ==> sep !in parts[i]
    ensures Split(Join(parts, sep), sep) == parts
  {
    if |parts| == 1 {
      SplitWhole(parts[0], sep);
    } else {
      var init, last := parts[..|parts| - 1], parts[|parts| - 1];
      var head := Join(init, sep) + [sep];
      assert Join(parts, sep) == head + last;
      hide Split, Join;
      SplitJoin(init, sep);
      SplitNext(Join(init, sep), sep, sep);
      SplitExtends(head, last, sep);
      LastReplaced(init, last);
      assert parts == init + [last];
    }
  }
}
