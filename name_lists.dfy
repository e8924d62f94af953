/** The comma-separated name lists that a direct annotation keeps in its
    bookkeeping attributes: `Array.prototype.join(',')` when applying and
    `String.prototype.split(',')` when removing. */
module NameLists {

  const Separator: char := ','

  /** `names.join(',')`. */
  function Join(names: seq<string>): (s: string)
    ensures |names| == 1 ==> s == names[0]
  {
    if |names| == 0 then ""
    else if |names| == 1 then names[0]
    else names[0] + [Separator] + Join(names[1..])
  }

  /** The number of separators in `s`. */
  function Separators(s: string): nat
  {
    if s == [] then 0 else (if s[0] == Separator then 1 else 0) + Separators(s[1..])
  }

  /** `s.split(',')`: there is always at least one part (`"".split(',')` is
      `[""]`), one more part than there are separators, and no part holds a
      separator. */
  function Split(s: string): (parts: seq<string>)
    ensures |parts| == Separators(s) + 1
    ensures forall i :: 0 <= i < |parts| ==> Separator !in parts[i]
  {
    if s == [] then [""]
    else
      var rest := Split(s[1..]);
      if s[0] == Separator then [""] + rest
      else [[s[0]] + rest[0]] + rest[1..]
  }

  /** A name without a separator splits to itself. */
  lemma {:induction false} SplitName(name: string)
    requires Separator !in name
    ensures Split(name) == [name]
  {
    if name != [] {
      SplitName(name[1..]);
      assert name == [name[0]] + name[1..];
    }
  }

  /** Splitting `name,rest` gives `name` followed by the parts of `rest`. */
  lemma {:induction false} SplitAfterName(name: string, rest: string)
    requires Separator !in name
    ensures Split(name + [Separator] + rest) == [name] + Split(rest)
  {
    if name == [] {
      assert name + [Separator] + rest == [Separator] + rest;
    } else {
      var whole := name + [Separator] + rest;
      SplitAfterName(name[1..], rest);
      assert whole[0] == name[0] && whole[1..] == name[1..] + [Separator] + rest;
      var tail := Split(whole[1..]);
      assert tail == [name[1..]] + Split(rest);
      assert [name[0]] + name[1..] == name;
    }
  }

  /** Round trip of the bookkeeping attributes: a non-empty list of names
      without commas is recovered by splitting its join. */
  lemma {:induction false} SplitJoin(names: seq<string>)
    requires |names| > 0
    requires forall i :: 0 <= i < |names| ==> Separator !in names[i]
    ensures Split(Join(names)) == names
  {
    if |names| == 1 {
      SplitName(names[0]);
    } else {
      SplitJoin(names[1..]);
      SplitAfterName(names[0], Join(names[1..]));
    }
  }

  /** The other direction holds for every string: joining the parts of a
      split gives the string back. */
  lemma {:induction false} JoinSplit(s: string)
    ensures Join(Split(s)) == s
  {
    if s != [] {
      JoinSplit(s[1..]);
      var rest := Split(s[1..]);
      if s[0] == Separator {
        assert Split(s) == [""] + rest;
        assert ([""] + rest)[1..] == rest;
        assert s == [Separator] + s[1..];
      } else {
        assert Split(s) == [[s[0]] + rest[0]] + rest[1..];
        if |rest| == 1 {
          assert s == [s[0]] + s[1..];
        } else {
          assert Join(rest) == rest[0] + [Separator] + Join(rest[1..]);
          assert ([[s[0]] + rest[0]] + rest[1..])[1..] == rest[1..];
          assert s == [s[0]] + s[1..];
        }
      }
    }
  }
}
