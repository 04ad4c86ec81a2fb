/** Joining names with a separator and splitting them again. */
module Strings {

  /** The names in order, with `sep` between neighbours. */
  function Join(names: seq<string>, sep: char): string
  {
    if names == [] then ""
    else if |names| == 1 then names[0]
    else names[0] + [sep] + Join(names[1..], sep)
  }

  /** Cuts `s` at every `sep`; the empty string is one empty piece. */
  function Split(s: string, sep: char): (pieces: seq<string>)
    ensures pieces != []
    ensures forall i :: 0 <= i < |pieces| ==> sep !in pieces[i]
    ensures Join(pieces, sep) == s
  {
    if s == "" then [""]
    else
      var rest := Split(s[1..], sep);
      if s[0] == sep then
        assert [s[0]] + s[1..] == s;
        assert ([""] + rest)[1..] == rest;
        [""] + rest
      else
        var pieces := [[s[0]] + rest[0]] + rest[1..];
        assert pieces[1..] == rest[1..];
        assert Join(pieces, sep) == [s[0]] + Join(rest, sep);
        pieces
  }

  /** A separator-free first name is the first piece. */
  lemma {:induction false} SplitFirst(name: string, tail: string, sep: char)
    requires sep !in name
    ensures Split(name, sep) == [name]
    ensures Split(name + [sep] + tail, sep) == [name] + Split(tail, sep)
  {
    hide Join;
    var whole := name + [sep] + tail;
    if name == "" {
      assert whole[1..] == tail;
    } else {
      var rest := name[1..];
      SplitFirst(rest, tail, sep);
      assert whole[0] == name[0] != sep && whole[1..] == rest + [sep] + tail;
      assert [name[0]] + rest == name;
    }
  }

  lemma {:induction false} SplitJoin(names: seq<string>, sep: char)
    requires names != []
    requires forall i :: 0 <= i < |names| ==> sep !in names[i]
    ensures Split(Join(names, sep), sep) == names
  {
    if |names| == 1 {
      SplitFirst(names[0], "", sep);
    } else {
      SplitJoin(names[1..], sep);
      SplitFirst(names[0], Join(names[1..], sep), sep);
    }
  }
}
