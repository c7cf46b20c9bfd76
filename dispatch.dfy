/** The shape shared by every keyword responder in the portal: an ordered list
    of keyword tests over the lower-cased message, the first test that holds
    picks the answer, and a default answers when none holds. */
module Dispatch {
  import opened Wrappers
  import opened Text

  /** A keyword test: `includes` of one word, or a conjunction or disjunction of tests. */
  datatype Test = Word(w: string) | And(l: Test, r: Test) | Or(l: Test, r: Test)

  predicate Holds(t: Test, s: string) {
    match t
    case Word(w) => Contains(s, w)
    case And(a, b) => Holds(a, s) && Holds(b, s)
    case Or(a, b) => Holds(a, s) || Holds(b, s)
  }

  datatype Rule<T> = Rule(test: Test, value: T)

  /** The index of the first rule at or after `from` whose test holds. */
  function FirstMatchFrom<T>(rules: seq<Rule<T>>, s: string, from: nat): (r: Option<nat>)
    requires from <= |rules|
    ensures r.Some? ==> from <= r.value < |rules| && Holds(rules[r.value].test, s)
    ensures r.Some? ==> forall j :: from <= j < r.value ==> !Holds(rules[j].test, s)
    ensures r.None? <==> forall j :: from <= j < |rules| ==> !Holds(rules[j].test, s)
    decreases |rules| - from
  {
    if from == |rules| then None
    else if Holds(rules[from].test, s) then Some(from)
    else FirstMatchFrom(rules, s, from + 1)
  }

  /** The answer of the first rule whose test holds, or `otherwise`. */
  function Select<T>(rules: seq<Rule<T>>, s: string, otherwise: T): T {
    match FirstMatchFrom(rules, s, 0)
    case Some(k) => rules[k].value
    case None => otherwise
  }

  /** First match wins: a rule answers exactly when its test holds and no earlier test does. */
  lemma SelectFirst<T>(rules: seq<Rule<T>>, s: string, otherwise: T, k: nat)
    requires k < |rules| && Holds(rules[k].test, s)
    requires forall j :: 0 <= j < k ==> !Holds(rules[j].test, s)
    ensures Select(rules, s, otherwise) == rules[k].value
  {
    var m := FirstMatchFrom(rules, s, 0);
    assert m.Some?;
    assert !(m.value < k) && !(k < m.value);
  }

  /** With no test holding, the default answers. */
  lemma SelectOtherwise<T>(rules: seq<Rule<T>>, s: string, otherwise: T)
    requires forall j :: 0 <= j < |rules| ==> !Holds(rules[j].test, s)
    ensures Select(rules, s, otherwise) == otherwise
  {
  }

  /** The answers of every rule at or after `from` whose test holds, in rule order. */
  function MatchedFrom<T>(rules: seq<Rule<T>>, s: string, from: nat): (r: seq<T>)
    requires from <= |rules|
    ensures |r| <= |rules| - from
    ensures r == [] <==> forall j :: from <= j < |rules| ==> !Holds(rules[j].test, s)
    decreases |rules| - from
  {
    if from == |rules| then []
    else (if Holds(rules[from].test, s) then [rules[from].value] else []) + MatchedFrom(rules, s, from + 1)
  }

  /** Rules that do not hold contribute nothing: the answers start at the next rule that holds. */
  lemma {:induction false} MatchedFromFirst<T>(rules: seq<Rule<T>>, s: string, from: nat, k: nat)
    requires from <= k < |rules| && Holds(rules[k].test, s)
    requires forall j :: from <= j < k ==> !Holds(rules[j].test, s)
    ensures MatchedFrom(rules, s, from) == [rules[k].value] + MatchedFrom(rules, s, k + 1)
    decreases k - from
  {
    if from < k {
      MatchedFromFirst(rules, s, from + 1, k);
    }
  }

  /** When rules `k1 < k2` are the first two that hold, the answers start with theirs. */
  lemma MatchedFromFirstTwo<T>(rules: seq<Rule<T>>, s: string, k1: nat, k2: nat)
    requires k1 < k2 < |rules| && Holds(rules[k1].test, s) && Holds(rules[k2].test, s)
    requires forall j :: 0 <= j < k2 && j != k1 ==> !Holds(rules[j].test, s)
    ensures MatchedFrom(rules, s, 0) == [rules[k1].value, rules[k2].value] + MatchedFrom(rules, s, k2 + 1)
  {
    MatchedFromFirst(rules, s, 0, k1);
    MatchedFromFirst(rules, s, k1 + 1, k2);
  }

  /** The outputs of `f` for each item, concatenated in order. */
  function Flatten<T, U>(items: seq<T>, f: T -> seq<U>): seq<U>
    decreases |items|
  {
    if items == [] then [] else f(items[0]) + Flatten(items[1..], f)
  }

  lemma {:induction false} FlattenAppend<T, U>(a: seq<T>, b: seq<T>, f: T -> seq<U>)
    ensures Flatten(a + b, f) == Flatten(a, f) + Flatten(b, f)
    decreases |a|
  {
    if a == [] {
      assert a + b == b;
    } else {
      assert (a + b)[0] == a[0];
      assert (a + b)[1..] == a[1..] + b;
      FlattenAppend(a[1..], b, f);
    }
  }

  lemma FlattenSingle<T, U>(x: T, f: T -> seq<U>)
    ensures Flatten([x], f) == f(x)
  {
    assert [x][1..] == [];
  }

  /** Flattening a list that starts with two items starts with their outputs. */
  lemma FlattenTwo<T, U>(x: T, y: T, rest: seq<T>, f: T -> seq<U>)
    ensures Flatten([x, y] + rest, f) == f(x) + f(y) + Flatten(rest, f)
  {
    assert ([x, y] + rest)[1..] == [y] + rest;
    assert ([y] + rest)[1..] == rest;
  }

  /** One rule of the table: rule `i` contributes `f` of its answer when its test holds. */
  lemma MatchedStep<T, U>(rules: seq<Rule<T>>, s: string, i: nat, f: T -> seq<U>)
    requires i < |rules|
    ensures Flatten(MatchedFrom(rules, s, i), f) ==
      (if Holds(rules[i].test, s) then f(rules[i].value) else []) + Flatten(MatchedFrom(rules, s, i + 1), f)
  {
    var head := if Holds(rules[i].test, s) then [rules[i].value] else [];
    assert MatchedFrom(rules, s, i) == head + MatchedFrom(rules, s, i + 1);
    FlattenAppend(head, MatchedFrom(rules, s, i + 1), f);
    if Holds(rules[i].test, s) {
      FlattenSingle(rules[i].value, f);
    }
  }

  /** What a run of statements `if (test) list.push(...f(answer))`, one per rule in table
      order, has built after the first `i` rules. */
  function PushedUpTo<T, U>(rules: seq<Rule<T>>, s: string, i: nat, f: T -> seq<U>): seq<U>
    requires i <= |rules|
  {
    if i == 0 then []
    else
      var rule := rules[i - 1];
      PushedUpTo(rules, s, i - 1, f) + (if Holds(rule.test, s) then f(rule.value) else [])
  }

  /** What has been pushed before rule `i`, followed by what the rules from `i` on match,
      is everything the table matches. */
  lemma {:induction false} PushedThenMatched<T, U>(rules: seq<Rule<T>>, s: string, i: nat, f: T -> seq<U>)
    requires i <= |rules|
    ensures PushedUpTo(rules, s, i, f) + Flatten(MatchedFrom(rules, s, i), f) ==
      Flatten(MatchedFrom(rules, s, 0), f)
    decreases i
  {
    if i > 0 {
      var rule := rules[i - 1];
      var now := if Holds(rule.test, s) then f(rule.value) else [];
      var later := Flatten(MatchedFrom(rules, s, i), f);
      PushedThenMatched(rules, s, i - 1, f);
      MatchedStep(rules, s, i - 1, f);
      assert PushedUpTo(rules, s, i, f) == PushedUpTo(rules, s, i - 1, f) + now;
      assert PushedUpTo(rules, s, i - 1, f) + now + later == PushedUpTo(rules, s, i - 1, f) + (now + later);
    }
  }

  /** Pushing rule by rule builds exactly `f` of every matched answer, in table order. */
  lemma PushedAll<T, U>(rules: seq<Rule<T>>, s: string, f: T -> seq<U>)
    ensures PushedUpTo(rules, s, |rules|, f) == Flatten(MatchedFrom(rules, s, 0), f)
  {
    PushedThenMatched(rules, s, |rules|, f);
    assert MatchedFrom(rules, s, |rules|) == [];
  }
}
