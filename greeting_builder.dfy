/** `GreetingBuilder`: a result builder that greets every string of its block,
    and the way a builder block is desugared into one `buildBlock` call. */
module GreetingBuilder {

  const Greeting := "Hello "

  /** `buildBlock(_:)`: `items.map { "Hello \($0)" }`. */
  function BuildBlock(items: seq<string>): (r: seq<string>)
    ensures |r| == |items|
    ensures forall i :: 0 <= i < |items| ==> r[i] == Greeting + items[i]
  {
    if items == [] then [] else [Greeting + items[0]] + BuildBlock(items[1..])
  }

  /** Every greeting starts with "Hello " and the item follows it unchanged. */
  lemma GreetingPrefix(items: seq<string>, i: nat)
    requires i < |items|
    ensures |BuildBlock(items)[i]| == |Greeting| + |items[i]|
    ensures BuildBlock(items)[i][..|Greeting|] == Greeting
    ensures BuildBlock(items)[i][|Greeting|..] == items[i]
  {
  }

  /** The builder keeps order and drops nothing: two blocks that greet alike
      held the same items in the same order. */
  lemma BuildBlockInjective(a: seq<string>, b: seq<string>)
    requires BuildBlock(a) == BuildBlock(b)
    ensures a == b
  {
    forall i | 0 <= i < |a|
      ensures a[i] == b[i]
    {
      GreetingPrefix(a, i);
      GreetingPrefix(b, i);
    }
  }

  /** Greeting a longer block greets its two parts in order. */
  lemma BuildBlockAppend(a: seq<string>, b: seq<string>)
    ensures BuildBlock(a + b) == BuildBlock(a) + BuildBlock(b)
  {
  }

  /** What evaluating a block yields: the value of each statement, by position,
      and the state left after the last one. */
  datatype Evaluation<T, S> = Evaluation(values: seq<T>, state: S)

  /** A statement of a block: it may read and change the state the earlier
      statements left, and it yields a value. */
  type Statement<T, !S> = S -> (T, S)

  /** The statements evaluated once each, first to last, every one starting
      from the state the one before it left. */
  function Run<T, S>(statements: seq<Statement<T, S>>, start: S): (e: Evaluation<T, S>)
    ensures |e.values| == |statements|
  {
    if statements == [] then Evaluation([], start)
    else
      var before := Run(statements[..|statements| - 1], start);
      var (value, after) := statements[|statements| - 1](before.state);
      Evaluation(before.values + [value], after)
  }

  /** Statement `i` yields what it computes from the state the statements before
      it left: earlier statements run first, and each runs once. */
  lemma {:induction false} RunAt<T, S>(statements: seq<Statement<T, S>>, start: S, i: nat)
    requires i < |statements|
    ensures Run(statements, start).values[i] == statements[i](Run(statements[..i], start).state).0
  {
    var n := |statements|;
    if i < n - 1 {
      var prefix := statements[..n - 1];
      assert prefix[..i] == statements[..i];
      assert prefix[i] == statements[i];
      RunAt(prefix, start, i);
    } else {
      assert statements[..n - 1] == statements[..i];
    }
  }

  /** Evaluating two blocks of statements one after the other is evaluating the
      joined block: the second starts from the state the first left. */
  lemma {:induction false} RunAppend<T, S>(a: seq<Statement<T, S>>, b: seq<Statement<T, S>>, start: S)
    ensures var first := Run(a, start);
      var second := Run(b, first.state);
      Run(a + b, start) == Evaluation(first.values + second.values, second.state)
  {
    if b == [] {
      assert a + b == a;
    } else {
      var b' := b[..|b| - 1];
      assert (a + b)[..|a + b| - 1] == a + b';
      assert (a + b)[|a + b| - 1] == b[|b| - 1];
      RunAppend(a, b', start);
    }
  }

  /** With statements that each append their own index to a trace, the trace
      after the block lists every index once, in source order. */
  lemma {:induction false} RunTrace<T>(statements: seq<Statement<T, seq<int>>>, start: seq<int>)
    requires forall i, trace :: 0 <= i < |statements| ==> statements[i](trace).1 == trace + [i]
    ensures Run(statements, start).state == start + seq(|statements|, k => k)
  {
    var n := |statements|;
    if n > 0 {
      var prefix := statements[..n - 1];
      assert forall i, trace :: 0 <= i < |prefix| ==> prefix[i](trace).1 == trace + [i] by {
        forall i, trace | 0 <= i < |prefix| ensures prefix[i](trace).1 == trace + [i] {
          assert prefix[i] == statements[i];
        }
      }
      RunTrace(prefix, start);
      assert seq(n, k => k) == seq(n - 1, k => k) + [n - 1];
    }
  }

  /** The desugared block: `let _a = …; let _b = …; return buildBlock(_a, _b)`.
      The statements are evaluated one at a time, in source order, each on the
      state the previous one left, and their values are kept by position. */
  method EvaluateStatements<T, S>(statements: seq<Statement<T, S>>, start: S) returns (values: seq<T>, state: S)
    ensures Evaluation(values, state) == Run(statements, start)
  {
    values, state := [], start;
    for i := 0 to |statements|
      invariant Evaluation(values, state) == Run(statements[..i], start)
    {
      assert statements[..i + 1][..i] == statements[..i];
      var (value, next) := statements[i](state);
      values, state := values + [value], next;
    }
    assert statements[..|statements|] == statements;
  }

  /** A `@GreetingBuilder` block: its statements evaluated in order, then the
      values greeted by position. */
  method Block<S>(statements: seq<Statement<string, S>>, start: S) returns (r: seq<string>, state: S)
    ensures state == Run(statements, start).state
    ensures |r| == |statements|
    ensures forall i :: 0 <= i < |statements| ==> r[i] == Greeting + Run(statements, start).values[i]
  {
    var values;
    values, state := EvaluateStatements(statements, start);
    r := BuildBlock(values);
  }
}
