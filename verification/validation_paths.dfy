/**
What flattening a forest of validation errors means: which property paths carry
constraints, which dotted key each path gets, and when a key determines its path.
*/
module ValidationPaths {
  import opened Prelude
  import opened Strings

  /** A `constraints` object counts when it is present, even when it is empty. */
  datatype ValidationError = ValidationError(
    property: string,
    constraints: Option<map<string, string>>,
    children: ChildErrors)

  datatype ChildErrors = Absent | Present(errors: seq<ValidationError>)
  {
    function ToSeq(): seq<ValidationError>
    {
      if Present? then errors else []
    }
  }

  /** The property names from a root error down to a node. */
  type Path = seq<string>

  /** Walking down `errors` along `path` can end at a node that carries constraints. */
  ghost predicate Constrained(errors: seq<ValidationError>, path: Path)
    decreases |path|
  {
    path != [] &&
    exists i :: 0 <= i < |errors| && errors[i].property == path[0] &&
      if |path| == 1 then errors[i].constraints.Some?
      else Constrained(errors[i].children.ToSeq(), path[1..])
  }

  /** The constrained paths of one error and of a list of errors, collected. */
  function PathsOf(error: ValidationError): set<Path>
  {
    var own := if error.constraints.Some? then {[error.property]} else {};
    match error.children
    case Absent => own
    case Present(errors) => own + Below(error.property, Paths(errors))
  }

  function Paths(errors: seq<ValidationError>): set<Path>
  {
    if errors == [] then {} else Paths(errors[..|errors| - 1]) + PathsOf(errors[|errors| - 1])
  }

  function Below(name: string, paths: set<Path>): set<Path>
  {
    set p | p in paths :: [name] + p
  }

  lemma {:induction false} PathsMembers(errors: seq<ValidationError>, path: Path)
    ensures path in Paths(errors) <==> exists i :: 0 <= i < |errors| && path in PathsOf(errors[i])
  {
    if errors != [] {
      var last := |errors| - 1;
      PathsMembers(errors[..last], path);
      if path in PathsOf(errors[last]) {
      } else if path in Paths(errors) {
        var i :| 0 <= i < last && path in PathsOf(errors[..last][i]);
        assert errors[i] == errors[..last][i];
      } else {
        forall i | 0 <= i < |errors|
          ensures path !in PathsOf(errors[i])
        {
          assert i < last ==> errors[i] == errors[..last][i];
        }
      }
    }
  }

  lemma BelowMembers(name: string, paths: set<Path>, path: Path)
    ensures path in Below(name, paths) <==> path != [] && path[0] == name && path[1..] in paths
  {
    if path != [] && path[0] == name {
      assert path == [name] + path[1..];
    }
    assert forall p: Path :: ([name] + p)[1..] == p;
  }

  lemma PathsOfMembers(error: ValidationError, path: Path)
    ensures path in PathsOf(error) <==>
            && path != [] && path[0] == error.property
            && ((|path| == 1 && error.constraints.Some?) || path[1..] in Paths(error.children.ToSeq()))
  {
    var own := if error.constraints.Some? then {[error.property]} else {};
    assert PathsOf(error) == own + Below(error.property, Paths(error.children.ToSeq()));
    BelowMembers(error.property, Paths(error.children.ToSeq()), path);
    hide PathsOf, Below, Paths;
    assert path == [error.property] <==> |path| == 1 && path[0] == error.property;
  }

  lemma {:induction false} EmptyPathNotCollected(errors: seq<ValidationError>)
    ensures [] !in Paths(errors)
  {
    if errors != [] {
      EmptyPathNotCollected(errors[..|errors| - 1]);
    }
  }

  /** The collected paths are exactly the constrained ones. */
  lemma {:induction false} PathsAreConstrained(errors: seq<ValidationError>, path: Path)
    ensures path in Paths(errors) <==> Constrained(errors, path)
    decreases |path|
  {
    EmptyPathNotCollected(errors);
    PathsMembers(errors, path);
    if path != [] {
      forall i | 0 <= i < |errors|
        ensures path in PathsOf(errors[i]) <==>
                && errors[i].property == path[0]
                && if |path| == 1 then errors[i].constraints.Some?
                   else Constrained(errors[i].children.ToSeq(), path[1..])
      {
        PathsOfMembers(errors[i], path);
        EmptyPathNotCollected(errors[i].children.ToSeq());
        PathsAreConstrained(errors[i].children.ToSeq(), path[1..]);
      }
    }
  }

  /** The two forests differ only in the order of siblings, at any depth. */
  ghost predicate Reordered(errors: seq<ValidationError>, others: seq<ValidationError>)
    decreases errors
  {
    exists place: seq<nat> :: IsReordering(errors, others, place)
  }

  /** `place[i]` is where error `i` of `errors` stands in `others`. */
  ghost predicate IsReordering(errors: seq<ValidationError>, others: seq<ValidationError>, place: seq<nat>)
    decreases errors, 0
  {
    && |place| == |errors| == |others|
    && (forall i :: 0 <= i < |place| ==> place[i] < |others|)
    && (forall j :: 0 <= j < |others| ==> j in place)
    && forall i :: 0 <= i < |errors| ==>
         var e, o := errors[i], others[place[i]];
         && e.property == o.property && e.constraints == o.constraints
         && match e.children
            case Absent => o.children.ToSeq() == []
            case Present(es) => Reordered(es, o.children.ToSeq())
  }

  /** Whether a path is constrained does not depend on the order of siblings. */
  lemma {:induction false} ReorderedConstrained(errors: seq<ValidationError>, others: seq<ValidationError>, path: Path)
    requires Reordered(errors, others)
    ensures Constrained(errors, path) <==> Constrained(others, path)
    decreases |path|
  {
    if path != [] {
      var place :| IsReordering(errors, others, place);
      forall i | 0 <= i < |errors|
        ensures |path| == 1 ||
                (Constrained(errors[i].children.ToSeq(), path[1..])
                 <==> Constrained(others[place[i]].children.ToSeq(), path[1..]))
      {
        if |path| > 1 && errors[i].children.Present? {
          ReorderedConstrained(errors[i].children.errors, others[place[i]].children.ToSeq(), path[1..]);
        }
      }
      if Constrained(others, path) {
        var j :| 0 <= j < |others| && others[j].property == path[0] &&
                 if |path| == 1 then others[j].constraints.Some?
                 else Constrained(others[j].children.ToSeq(), path[1..]);
        assert j in place;
        var i :| 0 <= i < |place| && place[i] == j;
        assert errors[i].property == path[0];
      }
    }
  }

  /** Reordering siblings anywhere in the forest leaves the constrained paths alone. */
  lemma ReorderedPaths(errors: seq<ValidationError>, others: seq<ValidationError>)
    requires Reordered(errors, others)
    ensures Paths(errors) == Paths(others)
  {
    forall path: Path
      ensures path in Paths(errors) <==> path in Paths(others)
    {
      PathsAreConstrained(errors, path);
      PathsAreConstrained(others, path);
      ReorderedConstrained(errors, others, path);
    }
  }

  // ---------------------------------------------------------------- keys

  /** The path prefix handed to the children of a node called `name`; an empty prefix counts as none. */
  function Extend(prefix: string, name: string): string
  {
    if prefix == "" then name else prefix + "." + name
  }

  function KeyFrom(prefix: string, path: Path): string
    decreases path
  {
    if path == [] then prefix else KeyFrom(Extend(prefix, path[0]), path[1..])
  }

  /** The key that the walk reaches at `path`. */
  function Key(path: Path): string
  {
    KeyFrom("", path)
  }

  /** Empty names in front of another name leave no trace in the key. */
  function Stripped(path: Path): (r: Path)
    ensures path != [] ==> r != []
    ensures |r| <= |path| && (|r| == |path| ==> r == path)
    ensures forall name :: name in r ==> name in path
  {
    if |path| > 1 && path[0] == "" then Stripped(path[1..]) else path
  }

  /** Being called path by path, the walk writes dots between names. */
  lemma {:induction false} KeyIsJoin(path: Path)
    requires path != []
    ensures Key(path) == Join(Stripped(path), '.')
  {
    hide Join;
    assert Key(path) == KeyFrom(path[0], path[1..]);
    if path[0] != "" {
      KeyFromIsJoin(path[0], path[1..]);
      assert [path[0]] + path[1..] == path;
    } else if |path| > 1 {
      KeyIsJoin(path[1..]);
    } else {
      JoinOne(path[0]);
      assert path == [path[0]];
    }
  }

  lemma JoinOne(name: string)
    ensures Join([name], '.') == name
  {
  }

  lemma {:induction false} KeyFromIsJoin(prefix: string, path: Path)
    requires prefix != ""
    ensures KeyFrom(prefix, path) == Join([prefix] + path, '.')
    decreases path
  {
    var all := [prefix] + path;
    assert all[1..] == path;
    if path != [] {
      var longer := prefix + "." + path[0];
      KeyFromIsJoin(longer, path[1..]);
      assert ([longer] + path[1..])[1..] == path[1..];
      if |path| > 1 {
        assert Join([longer] + path[1..], '.') == longer + "." + Join(path[1..], '.');
        assert Join(path, '.') == path[0] + "." + Join(path[1..], '.');
      }
    }
  }

  /** What a path needs for its key to give it back. */
  predicate Decodable(path: Path)
  {
    && (forall i :: 0 <= i < |path| ==> '.' !in path[i])
    && (|path| > 1 ==> path[0] != "")
  }

  /** Splitting a key at its dots gives back the path if and only if the path is decodable. */
  lemma KeyDecodes(path: Path)
    requires path != []
    ensures Split(Key(path), '.') == path <==> Decodable(path)
  {
    KeyIsJoin(path);
    var r := Stripped(path);
    if Split(Key(path), '.') == path {
      assert forall i :: 0 <= i < |r| ==> r[i] in path;
      SplitJoin(r, '.');
    } else if Decodable(path) {
      SplitJoin(path, '.');
    }
  }

  /** Keys of decodable paths never collide. */
  lemma KeysDistinct(p: Path, q: Path)
    requires p != [] && q != [] && Decodable(p) && Decodable(q) && Key(p) == Key(q)
    ensures p == q
  {
    KeyDecodes(p);
    KeyDecodes(q);
  }

  function Keys(prefix: string, paths: set<Path>): set<string>
  {
    set p | p in paths :: KeyFrom(prefix, p)
  }

  lemma KeysBelow(prefix: string, name: string, paths: set<Path>)
    ensures Keys(prefix, Below(name, paths)) == Keys(Extend(prefix, name), paths)
  {
    assert forall p: Path :: ([name] + p)[1..] == p && KeyFrom(prefix, [name] + p) == KeyFrom(Extend(prefix, name), p);
    forall p | p in paths
      ensures KeyFrom(Extend(prefix, name), p) in Keys(prefix, Below(name, paths))
    {
      assert [name] + p in Below(name, paths);
    }
  }

  /** As many keys as paths. */
  lemma {:induction false} KeysCount(paths: set<Path>)
    requires forall p :: p in paths ==> p != [] && Decodable(p)
    ensures |Keys("", paths)| == |paths|
  {
    if paths != {} {
      var p :| p in paths;
      var rest := paths - {p};
      KeysCount(rest);
      forall q | q in rest
        ensures Key(q) != Key(p)
      {
        if Key(q) == Key(p) {
          KeysDistinct(p, q);
        }
      }
      assert Keys("", paths) == Keys("", rest) + {Key(p)};
    }
  }
}
