/** The validation pipe: a recursive walk that writes keys into one shared details object. */
module ValidationPipes {
  import opened Prelude
  import opened Strings
  import opened ValidationPaths

  /** A plain object has this key built in, and ignores a string assigned to it. */
  const PROTO := "__proto__"
  const INVALID := "invalid"

  datatype ErrorCode = InvalidArgumentError | InternalServerError

  datatype Response =
    | Plain(status: nat)                                            // HttpErrorByCode, no details
    | ApiError(code: ErrorCode, details: map<string, string>)

  /** `entries` after the given keys have been marked invalid. */
  function Record(entries: map<string, string>, keys: set<string>): map<string, string>
  {
    map k | k in entries.Keys + (keys - {PROTO}) :: if k in keys - {PROTO} then INVALID else entries[k]
  }

  /** `after` has the given keys marked invalid and is otherwise as before; the built-in key cannot be marked. */
  ghost predicate Marked(before: map<string, string>, after: map<string, string>, keys: set<string>)
  {
    forall k ::
      if k in keys && k != "__proto__" then k in after && after[k] == "invalid"
      else (k in after <==> k in before) && (k in before ==> after[k] == before[k])
  }

  lemma RecordMarks(entries: map<string, string>, keys: set<string>)
    ensures Marked(entries, Record(entries, keys), keys)
  {
  }

  /** The details a forest of errors comes to: one entry for the key of each constrained path. */
  function Details(errors: seq<ValidationError>): map<string, string>
  {
    Record(map[], Keys("", Paths(errors)))
  }

  /** The object under construction, shared by all calls of the walk. */
  class DetailsObject {
    var entries: map<string, string>

    constructor ()
      ensures entries == map[]
    {
      entries := map[];
    }

    /** `details[key] = 'invalid'`. */
    method MarkInvalid(key: string)
      modifies this
      ensures entries == Record(old(entries), {key})
      ensures entries == if key == "__proto__" then old(entries) else old(entries)[key := "invalid"]
    {
      if key != PROTO {
        entries := entries[key := INVALID];
      }
    }
  }

  lemma RecordTwice(entries: map<string, string>, keys: set<string>, more: set<string>)
    ensures Record(Record(entries, keys), more) == Record(entries, keys + more)
  {
  }

  lemma KeysUnion(prefix: string, paths: set<Path>, more: set<Path>)
    ensures Keys(prefix, paths + more) == Keys(prefix, paths) + Keys(prefix, more)
  {
  }

  method ProcessValidationError(error: ValidationError, details: DetailsObject, prefix: string)
    modifies details
    ensures details.entries == Record(old(details.entries), Keys(prefix, PathsOf(error)))
    ensures Marked(old(details.entries), details.entries, Keys(prefix, PathsOf(error)))
    decreases error
  {
    var propertyPath := if prefix != "" then prefix + "." + error.property else error.property;
    ghost var own: set<Path> := if error.constraints.Some? then {[error.property]} else {};
    ghost var before := details.entries;
    if error.constraints.Some? {
      details.MarkInvalid(propertyPath);
    }
    assert Keys(prefix, own) == if error.constraints.Some? then {propertyPath} else {} by {
      assert KeyFrom(prefix, [error.property]) == KeyFrom(propertyPath, []);
    }
    assert details.entries == Record(before, Keys(prefix, own));

    if error.children.Present? && |error.children.errors| > 0 {
      ghost var marked := details.entries;
      var children := error.children.errors;
      ProcessAll(children, details, propertyPath);
      RecordTwice(before, Keys(prefix, own), Keys(propertyPath, Paths(children)));
      KeysBelow(prefix, error.property, Paths(children));
      KeysUnion(prefix, own, Below(error.property, Paths(children)));
    } else {
      assert PathsOf(error) == own;
    }
    RecordMarks(before, Keys(prefix, PathsOf(error)));
  }

  /** The `forEach` over sibling errors. */
  method ProcessAll(errors: seq<ValidationError>, details: DetailsObject, prefix: string)
    modifies details
    ensures details.entries == Record(old(details.entries), Keys(prefix, Paths(errors)))
    decreases errors
  {
    ghost var before := details.entries;
    for i := 0 to |errors|
      invariant details.entries == Record(before, Keys(prefix, Paths(errors[..i])))
    {
      ProcessValidationError(errors[i], details, prefix);
      assert errors[..i + 1][..i] == errors[..i];
      RecordTwice(before, Keys(prefix, Paths(errors[..i])), Keys(prefix, PathsOf(errors[i])));
      KeysUnion(prefix, Paths(errors[..i]), PathsOf(errors[i]));
    }
    assert errors[..|errors|] == errors;
  }

  method GetExceptionObj(validationErrors: seq<ValidationError>) returns (r: Response)
    ensures validationErrors == [] ==>
              r == ApiError(InternalServerError, map["error_id" := "302ce322-5063-4d09-a3dc-78f0770d0c97"])
    ensures validationErrors != [] ==> r == ApiError(InvalidArgumentError, Details(validationErrors))
  {
    if |validationErrors| == 0 {
      return ApiError(InternalServerError, map["error_id" := "302ce322-5063-4d09-a3dc-78f0770d0c97"]);
    }
    var details := new DetailsObject();
    ProcessAll(validationErrors, details, "");
    r := ApiError(InvalidArgumentError, details.entries);
  }

  method CreateException(
        validationErrors: seq<ValidationError>, isDetailedOutputDisabled: bool, errorHttpStatusCode: nat)
    returns (r: Response)
    ensures isDetailedOutputDisabled ==> r == Plain(errorHttpStatusCode)
    ensures !isDetailedOutputDisabled && validationErrors != [] ==>
              r == ApiError(InvalidArgumentError, Details(validationErrors))
    ensures !isDetailedOutputDisabled && validationErrors == [] ==> r.ApiError? && r.code == InternalServerError
  {
    if isDetailedOutputDisabled {
      return Plain(errorHttpStatusCode);
    }
    r := GetExceptionObj(validationErrors);
  }

  /** The details hold a key exactly for each constrained path, every one marked invalid. */
  lemma {:induction false} DetailsAreTheConstrainedPaths(errors: seq<ValidationError>, key: string)
    ensures key in Details(errors) <==> key != "__proto__" && exists p :: Constrained(errors, p) && Key(p) == key
    ensures key in Details(errors) ==> Details(errors)[key] == "invalid"
  {
    if key in Details(errors) {
      var p :| p in Paths(errors) && Key(p) == key;
      PathsAreConstrained(errors, p);
    }
    if p :| Constrained(errors, p) && Key(p) == key {
      PathsAreConstrained(errors, p);
    }
  }

  /** The order of siblings, at any depth, does not matter. */
  lemma DetailsIgnoreOrder(errors: seq<ValidationError>, others: seq<ValidationError>)
    requires Reordered(errors, others)
    ensures Details(errors) == Details(others)
  {
    ReorderedPaths(errors, others);
  }

  /**
  With names that hold no dot (and no empty name above another), every key
  splits back into its path, and the details have one entry per constrained path.
  */
  lemma {:induction false} DetailsDecode(errors: seq<ValidationError>)
    requires forall p :: Constrained(errors, p) ==> Decodable(p) && p != ["__proto__"]
    ensures |Details(errors)| == |Paths(errors)|
    ensures forall p :: Constrained(errors, p) <==> p != [] && p in Paths(errors)
    ensures forall p :: Constrained(errors, p) ==> Key(p) in Details(errors) && Split(Key(p), '.') == p
  {
    forall p: Path
      ensures Constrained(errors, p) <==> p in Paths(errors)
      ensures p in Paths(errors) ==> Key(p) != PROTO && Split(Key(p), '.') == p && p != []
    {
      PathsAreConstrained(errors, p);
      if p in Paths(errors) {
        KeyDecodes(p);
        SplitFirst(PROTO, "", '.');
      }
    }
    hide Constrained, Key, KeyFrom, Split;
    KeysCount(Paths(errors));
    assert Details(errors).Keys == Keys("", Paths(errors));
  }
}
