/** What both engines share: the errors they raise, the record that
    `dict(zip(FIELD_NAMES, data))` builds, and the fail-fast way the engines
    build a list in a loop whose every step may raise. */
module Records {
  import opened Wrappers

  /** The Python exceptions the modelled code raises. */
  datatype Error =
    | ValueError(message: string)
    | NotImplementedError(message: string)
    | AttributeError(message: string)

  /** `.get_text()` called on the `None` that a missed `select_one` returns. */
  const NO_ELEMENT := AttributeError("'NoneType' object has no attribute 'get_text'")

  /** The text of an element found by `select_one`, or the fault when it missed. */
  function TextOf(found: Option<string>): Result<string, Error> {
    match found
    case Some(text) => Success(text)
    case None => Failure(NO_ELEMENT)
  }

  /** One scraped entry: a Python dict, whose key order is insertion order. */
  type Record = seq<(string, string)>

  /** `zip(names, values)`: pairs up to the shorter of the two. */
  function Zip(names: seq<string>, values: seq<string>): Record {
    if names == [] || values == [] then []
    else [(names[0], values[0])] + Zip(names[1..], values[1..])
  }

  /** The keys of a record, in order. */
  function Keys(r: Record): seq<string> {
    seq(|r|, i requires 0 <= i < |r| => r[i].0)
  }

  /** `zip` pairs the i-th name with the i-th value and stops at the shorter input. */
  lemma {:induction false} ZipPairs(names: seq<string>, values: seq<string>)
    ensures |Zip(names, values)| == if |names| <= |values| then |names| else |values|
    ensures forall i :: 0 <= i < |Zip(names, values)| ==> Zip(names, values)[i] == (names[i], values[i])
  {
    if names != [] && values != [] {
      ZipPairs(names[1..], values[1..]);
    }
  }

  /** With one value per name, the record's keys are exactly the names, in order,
      and each key maps to its value. */
  lemma ZipKeys(names: seq<string>, values: seq<string>)
    requires |values| == |names|
    ensures Keys(Zip(names, values)) == names
    ensures forall i :: 0 <= i < |names| ==> Zip(names, values)[i] == (names[i], values[i])
  {
    ZipPairs(names, values);
  }

  /** A Python loop `out = []; for x in xs: out.append(f(x))` in which `f` may raise:
      the first raise aborts the loop and propagates. */
  function Collect<A, B>(xs: seq<A>, f: A -> Result<B, Error>): Result<seq<B>, Error> {
    if xs == [] then Success([])
    else
      match Collect(xs[..|xs| - 1], f)
      case Failure(e) => Failure(e)
      case Success(ys) =>
        match f(xs[|xs| - 1])
        case Failure(e) => Failure(e)
        case Success(y) => Success(ys + [y])
  }

  /** The loop completes iff every step succeeds, and then it yields one value per
      input, in input order. */
  lemma {:induction false} CollectAll<A, B>(xs: seq<A>, f: A -> Result<B, Error>)
    ensures Collect(xs, f).Success? <==> forall i :: 0 <= i < |xs| ==> f(xs[i]).Success?
    ensures Collect(xs, f).Success? ==>
      |Collect(xs, f).value| == |xs| &&
      forall i :: 0 <= i < |xs| ==> Collect(xs, f).value[i] == f(xs[i]).value
  {
    if xs != [] {
      var init := xs[..|xs| - 1];
      CollectAll(init, f);
      assert forall i :: 0 <= i < |init| ==> init[i] == xs[i];
    }
  }

  /** The error that aborts the loop is the one raised by the first failing step. */
  lemma {:induction false} CollectFirstFault<A, B>(xs: seq<A>, f: A -> Result<B, Error>, k: nat)
    requires k < |xs| && f(xs[k]).Failure?
    requires forall i :: 0 <= i < k ==> f(xs[i]).Success?
    ensures Collect(xs, f) == Failure(f(xs[k]).error)
  {
    var init := xs[..|xs| - 1];
    if k == |xs| - 1 {
      CollectAll(init, f);
      assert forall i :: 0 <= i < |init| ==> init[i] == xs[i];
    } else {
      CollectFirstFault(init, f, k);
    }
  }

  /** One more step of the loop, as the loop body performs it. */
  lemma CollectStep<A, B>(xs: seq<A>, i: nat, f: A -> Result<B, Error>, ys: seq<B>)
    requires i < |xs| && Collect(xs[..i], f) == Success(ys) && f(xs[i]).Success?
    ensures Collect(xs[..i + 1], f) == Success(ys + [f(xs[i]).value])
  {
    assert xs[..i + 1][..i] == xs[..i];
  }

  /** A failing step, after successful ones, aborts the whole loop with its error. */
  lemma CollectAbort<A, B>(xs: seq<A>, i: nat, f: A -> Result<B, Error>, ys: seq<B>)
    requires i < |xs| && Collect(xs[..i], f) == Success(ys) && f(xs[i]).Failure?
    ensures Collect(xs, f) == Failure(f(xs[i]).error)
  {
    CollectAll(xs[..i], f);
    assert forall j :: 0 <= j < i ==> xs[..i][j] == xs[j];
    CollectFirstFault(xs, f, i);
  }

  /** `dict(zip(field_names, data))` for one parsed page, or the page's fault. */
  function RecordOf(fieldNames: seq<string>, data: Result<seq<string>, Error>): Result<Record, Error> {
    match data
    case Failure(e) => Failure(e)
    case Success(values) => Success(Zip(fieldNames, values))
  }
}
