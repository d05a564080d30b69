/** Optional values, results and the errors the Fourhills core raises.

    Python exceptions become values of `Error`; every raising path of the
    core returns `Err(...)` instead of throwing. */
module Outcomes {

  datatype Option<+T> = None | Some(value: T)

  datatype Result<+T> = Ok(value: T) | Err(error: Error) {
    predicate IsFailure() { Err? }

    function PropagateFailure<U>(): Result<U>
      requires Err?
    {
      Err(error)
    }

    function Extract(): T
      requires Ok?
    {
      value
    }
  }

  /** The kinds of failure of the core, each naming what the source puts in
      its exception. */
  datatype Error =
    | WidthTooSmall(minimum: int)                  // FhConfigError from StatBlock.battle_info
    | NoAbilities                                   // ZeroDivisionError: line_width / len(ability)
    | InvalidChallenge(statBlock: string, challenge: real)  // FhParseError from StatBlock.xp
    | InvalidEntry(entry: string)                   // FhParseError from Scene.from_file
    | MissingKey(record: string, key: string)       // FhParseError: missing cheatsheet key
    | KeyNotFound(key: string)                      // KeyError from a dictionary lookup
    | NoMatch(prefix: string)                       // ValueError(prefix) from from_prefix
    | AmbiguousReference(prefix: string, matches: seq<string>)  // FhAmbiguousReferenceError
    | NotImplemented                                // NotImplementedError
    | BadArguments(record: string)                  // TypeError from a dataclass constructor
    | WrongShape(key: string)                       // a YAML value of an unexpected shape
    | LegacyWidthTooSmall                           // ValueError from the older formatted_string
    | BattleFileError                               // FourhillsFileLoadError from load_battle_info
    | UsageError(message: string)                   // click's ctx.fail

  /** Python truthiness of an optional list: neither None nor empty. */
  predicate Present<T>(o: Option<seq<T>>) {
    o.Some? && |o.value| > 0
  }

  /** Python truthiness of an optional string: neither None nor "". */
  predicate PresentText(o: Option<string>) {
    o.Some? && o.value != ""
  }

  /** `o or ""` for an optional string. */
  function TextOr(o: Option<string>): (r: string)
    ensures PresentText(o) ==> r == o.value
    ensures !PresentText(o) ==> r == ""
  {
    if o.Some? then o.value else ""
  }

  /** A comprehension whose every step may raise: the results of `f` on the
      items in order, or the error of the first item it fails on. */
  function MapAll<A, B>(xs: seq<A>, f: A -> Result<B>): (r: Result<seq<B>>)
    ensures r.Ok? ==> |r.value| == |xs|
    decreases |xs|
  {
    if |xs| == 0 then Ok([])
    else
      var init :- MapAll(xs[..|xs| - 1], f);
      var last :- f(xs[|xs| - 1]);
      Ok(init + [last])
  }

  /** Result `i` is `f` of item `i`. */
  lemma {:induction false} MapAllAt<A, B>(xs: seq<A>, f: A -> Result<B>, i: nat)
    requires MapAll(xs, f).Ok? && i < |xs|
    ensures f(xs[i]) == Ok(MapAll(xs, f).value[i])
    decreases |xs|
  {
    var init := xs[..|xs| - 1];
    if i < |xs| - 1 {
      assert init[i] == xs[i];
      MapAllAt(init, f, i);
    }
  }

  /** One more item: its result is appended, or its error is the outcome. */
  lemma MapAllStep<A, B>(xs: seq<A>, f: A -> Result<B>, i: nat)
    requires i < |xs| && MapAll(xs[..i], f).Ok?
    ensures f(xs[i]).Ok? ==> MapAll(xs[..i + 1], f) == Ok(MapAll(xs[..i], f).value + [f(xs[i]).value])
    ensures f(xs[i]).Err? ==> MapAll(xs[..i + 1], f) == Err(f(xs[i]).error)
  {
    assert xs[..i + 1][..i] == xs[..i];
  }

  /** Once a prefix fails, the whole comprehension fails with its error. */
  lemma {:induction false} MapAllErrPrefix<A, B>(xs: seq<A>, f: A -> Result<B>, n: nat)
    requires n <= |xs| && MapAll(xs[..n], f).Err?
    ensures MapAll(xs, f) == MapAll(xs[..n], f)
    decreases |xs|
  {
    if n == |xs| {
      assert xs[..n] == xs;
    } else {
      var init := xs[..|xs| - 1];
      assert init[..n] == xs[..n];
      MapAllErrPrefix(init, f, n);
    }
  }

  /** The comprehension succeeds exactly when `f` succeeds on every item. */
  lemma {:induction false} MapAllOk<A, B>(xs: seq<A>, f: A -> Result<B>)
    ensures MapAll(xs, f).Ok? <==> forall i :: 0 <= i < |xs| ==> f(xs[i]).Ok?
    decreases |xs|
  {
    if MapAll(xs, f).Ok? {
      forall i | 0 <= i < |xs| ensures f(xs[i]).Ok? {
        MapAllAt(xs, f, i);
      }
    }
    if |xs| > 0 {
      var init := xs[..|xs| - 1];
      MapAllOk(init, f);
      assert forall i :: 0 <= i < |init| ==> init[i] == xs[i];
    }
  }

  /** The error is that of the first failing item. */
  lemma MapAllFirstError<A, B>(xs: seq<A>, f: A -> Result<B>, i: nat)
    requires i < |xs| && f(xs[i]).Err?
    requires forall k :: 0 <= k < i ==> f(xs[k]).Ok?
    ensures MapAll(xs, f) == Err(f(xs[i]).error)
  {
    var prefix := xs[..i];
    assert forall k :: 0 <= k < |prefix| ==> prefix[k] == xs[k];
    MapAllOk(prefix, f);
    MapAllStep(xs, f, i);
    MapAllErrPrefix(xs, f, i + 1);
  }
}
