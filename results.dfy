/** Outcomes of the transform stages. Every exception the stages raise (their own
    `raise Exception(...)` as well as the KeyError, TypeError and ValueError that
    Python raises on a missing key, an item assignment into a non-mapping or a
    failed tuple unpack) becomes a `Fail` carrying an `Error`; a failure aborts
    the whole run. */
module Results {

  datatype Option<+T> = None | Some(value: T) {
    function GetOr(default: T): T {
      match this
      case Some(v) => v
      case None => default
    }
  }

  datatype Error =
    | MissingKey(key: string)                       // KeyError on `d[key]`
    | NotAMapping(key: string)                      // the value under `key`, used as a dict, is none
    | NotAString(key: string)                       // string concatenation with a non-string under `key`
    | NotAnInteger(text: string)                    // `int(text)` raised ValueError
    | FormatKeyError(field: string)                 // `str.format` met a field it was not given
    | FormatSyntaxError(template: string)           // `str.format` met an unbalanced brace
    | NothingToSplit(text: string)                  // `a, b = text.split('/', 1)` had one part only
    | OsGroupsNotOnWindows(os: string)
    | NeitherNameNorLabel
    | UnsupportedIndexProduct(product: string)
    | UnknownIndexType(indexType: string)           // KeyError in the index-builder registry
    | UnknownGroup(group: string, kindPath: string, jobFrom: string)
    | SymbolTooLong(symbol: string)
    | UnknownImplementation(implementation: string) // KeyError in the payload-builder registry
    | SchemaViolation(taskLabel: string)            // the description does not match its schema
    | UnknownDockerImageType
    | KeyedByError(field: string)                   // raised by keyed-by resolution
    | InvalidIdentifier(taskLabel: string, attr: string, value: string)
    | TooManyDependencies(kind: string, taskLabel: string, count: nat)

  datatype Result<+T> = Ok(value: T) | Fail(error: Error) {
    predicate IsFailure() {
      Fail?
    }

    function PropagateFailure<U>(): Result<U>
      requires Fail?
    {
      Fail(error)
    }

    function Extract(): T
      requires Ok?
    {
      value
    }
  }

  /** The outcome of running one stage over a stream of records: the records'
      own outcomes in order, or the first failure among them. */
  function Collect<T>(rs: seq<Result<T>>): Result<seq<T>>
  {
    if rs == [] then Ok([])
    else
      match rs[0]
      case Fail(e) => Fail(e)
      case Ok(v) =>
        match Collect(rs[1..])
        case Fail(e) => Fail(e)
        case Ok(vs) => Ok([v] + vs)
  }

  /** A stream succeeds exactly when every record does, and then yields every
      record's value in the original order. */
  lemma {:induction false} CollectOk<T>(rs: seq<Result<T>>)
    ensures Collect(rs).Ok? <==> forall i | 0 <= i < |rs| :: rs[i].Ok?
    ensures Collect(rs).Ok? ==>
              |Collect(rs).value| == |rs| &&
              forall i | 0 <= i < |rs| :: rs[i] == Ok(Collect(rs).value[i])
  {
    if rs != [] {
      CollectOk(rs[1..]);
      if rs[0].Ok? && Collect(rs[1..]).Ok? {
        assert forall i | 1 <= i < |rs| :: rs[i] == rs[1..][i - 1];
      } else if rs[0].Ok? {
        var k :| 0 <= k < |rs[1..]| && rs[1..][k].Fail?;
        assert rs[k + 1].Fail?;
      }
    }
  }

  /** A failing stream reports the failure of its first failing record. */
  lemma {:induction false} CollectFirstFailure<T>(rs: seq<Result<T>>, k: nat)
    requires k < |rs| && rs[k].Fail?
    requires forall i | 0 <= i < k :: rs[i].Ok?
    ensures Collect(rs) == Fail(rs[k].error)
  {
    if k > 0 {
      assert rs[0].Ok?;
      CollectFirstFailure(rs[1..], k - 1);
    }
  }

  /** Values collected one record at a time: what a stage loop has produced so far. */
  lemma {:induction false} CollectAll<T>(rs: seq<Result<T>>, vs: seq<T>)
    requires |vs| == |rs|
    requires forall i | 0 <= i < |rs| :: rs[i] == Ok(vs[i])
    ensures Collect(rs) == Ok(vs)
  {
    if rs != [] {
      CollectAll(rs[1..], vs[1..]);
      assert vs == [vs[0]] + vs[1..];
    }
  }
}
