// SpongeCommandSpecificationBuilder: collects a command's parts. Child
// commands are registered under lower-cased keys, and a key may be taken
// only once, ignoring case.
module SpecificationBuilder {
  import opened Common
  import opened JavaLang
  import opened Tokenizer
  import opened Parsing
  import opened CommandSpecification

  /** What one `addChildren` call hands over: each child under its keys. */
  type ChildEntries = seq<(seq<string>, nat)>

  /** The (lower-cased key, child) pairs of one entry, in order. */
  function KeyedEntry(e: (seq<string>, nat)): (r: seq<(string, nat)>)
    ensures |r| == |e.0|
    ensures forall k :: 0 <= k < |r| ==> r[k] == (ToLower(e.0[k]), e.1)
  {
    seq(|e.0|, k requires 0 <= k < |e.0| => (ToLower(e.0[k]), e.1))
  }

  /** The pairs of all entries, entry after entry. */
  function Keyed(entries: ChildEntries): seq<(string, nat)>
    decreases |entries|
  {
    if |entries| == 0 then [] else Keyed(entries[..|entries| - 1]) + KeyedEntry(entries[|entries| - 1])
  }

  const DuplicateKey: Failure := Crash("IllegalArgumentException")

  /** The staging map of `addChildren`: a key put twice is refused. */
  function Stage(pairs: seq<(string, nat)>): (r: Result<map<string, nat>>)
    ensures r.Err? ==> r.failure == DuplicateKey
    decreases |pairs|
  {
    if |pairs| == 0 then Ok(map[])
    else
      var init := pairs[..|pairs| - 1];
      assert pairs == init + [pairs[|pairs| - 1]];
      match Stage(init)
      case Err(f) => Err(f)
      case Ok(m) =>
        var (key, child) := pairs[|pairs| - 1];
        if key in m then Err(DuplicateKey) else Ok(m[key := child])
  }

  /** `addChildren` on the registered children: no key twice in the call, and none already registered. */
  function AddedChildren(children: map<string, nat>, entries: ChildEntries): (r: Result<map<string, nat>>)
  {
    match Stage(Keyed(entries))
    case Err(f) => Err(f)
    case Ok(stage) =>
      if exists k :: k in children && k in stage then Err(DuplicateKey) else Ok(children + stage)
  }

  /** The builder's fields. */
  datatype BuilderFields = BuilderFields(
    parameters: seq<Parameter>,
    children: map<string, nat>,
    behavior: ChildExceptionBehavior,
    inputTokenizer: TokenizerConfig,
    executor: Option<nat>,
    flags: Option<Flags>,
    permission: Option<string>,
    shortDescription: Option<string>,
    extendedDescription: Option<string>,
    requirePermissionForChildren: bool)

  /** The declared defaults, which `reset` restores. */
  const DEFAULTS: BuilderFields :=
    BuilderFields([], map[], Rethrow, LENIENT_QUOTED_STRING, None, None, None, None, None, true)

  /** `build`: a command needs an executor or at least one child. */
  function Built(f: BuilderFields): (r: Result<Specification>)
    ensures r.Err? <==> |f.children| == 0 && f.executor.None?
    ensures r.Err? ==> r.failure == Crash("IllegalStateException")
  {
    if |f.children| == 0 && f.executor.None? then Err(Crash("IllegalStateException"))
    else Ok(Specification(f.parameters, f.children, f.behavior, f.inputTokenizer, f.flags, f.permission,
                          f.shortDescription, f.extendedDescription, f.requirePermissionForChildren))
  }

  class SpongeCommandSpecificationBuilder {
    var parameters: seq<Parameter>
    var children: map<string, nat>
    var behavior: ChildExceptionBehavior
    var inputTokenizer: TokenizerConfig
    var executor: Option<nat>
    var flags: Option<Flags>
    var permission: Option<string>
    var shortDescription: Option<string>
    var extendedDescription: Option<string>
    var requirePermissionForChildren: bool

    function Fields(): BuilderFields
      reads this
    {
      BuilderFields(parameters, children, behavior, inputTokenizer, executor, flags, permission,
                    shortDescription, extendedDescription, requirePermissionForChildren)
    }

    constructor ()
      ensures Fields() == DEFAULTS
    {
      parameters, children, behavior, inputTokenizer := [], map[], Rethrow, LENIENT_QUOTED_STRING;
      executor, flags, permission, shortDescription, extendedDescription := None, None, None, None, None;
      requirePermissionForChildren := true;
    }

    /**
     * `addChildren`: every key is lower-cased into a staging map, refusing a
     * key seen before in this call; a staged key already registered is
     * refused too. Only a call that passes both checks registers anything.
     */
    method AddChildren(entries: ChildEntries) returns (o: Outcome)
      modifies this`children
      ensures var r := AddedChildren(old(children), entries);
        (o.Pass? <==> r.Ok?) && (r.Ok? ==> children == r.value) && (r.Err? ==> o.failure == r.failure && children == old(children))
    {
      var stage: map<string, nat> := map[];
      for i := 0 to |entries|
        invariant Stage(Keyed(entries[..i])) == Ok(stage)
        invariant children == old(children)
      {
        var (keys, child) := entries[i];
        ghost var before := Keyed(entries[..i]);
        assert entries[..i + 1][..i] == entries[..i];
        assert Keyed(entries[..i + 1]) == before + KeyedEntry(entries[i]);
        var ok;
        stage, ok := StageKeys(keys, child, before, stage);
        if !ok {
          PrefixFailureStays(entries, i + 1);
          return Fail(DuplicateKey);
        }
      }
      assert entries[..|entries|] == entries;
      if exists k :: k in children && k in stage {
        return Fail(DuplicateKey);
      }
      children := children + stage;
      o := Pass;
    }

    /** `addChild(child, keys)`: one child under several keys. */
    method AddChild(child: nat, keys: seq<string>) returns (o: Outcome)
      modifies this`children
      ensures var r := AddedChildren(old(children), [(keys, child)]);
        (o.Pass? <==> r.Ok?) && (r.Ok? ==> children == r.value) && (r.Err? ==> children == old(children))
    {
      o := AddChildren([(keys, child)]);
    }

    method RequirePermissionForChildren(required: bool)
      modifies this
      ensures Fields() == old(Fields()).(requirePermissionForChildren := required)
    {
      requirePermissionForChildren := required;
    }

    method ChildExceptionBehavior(b: ChildExceptionBehavior)
      modifies this
      ensures Fields() == old(Fields()).(behavior := b)
    {
      behavior := b;
    }

    method SimpleDescription(d: Option<string>)
      modifies this
      ensures Fields() == old(Fields()).(shortDescription := d)
    {
      shortDescription := d;
    }

    method Executor(e: nat)
      modifies this
      ensures Fields() == old(Fields()).(executor := Some(e))
    {
      executor := Some(e);
    }

    method ExtendedDescription(d: Option<string>)
      modifies this
      ensures Fields() == old(Fields()).(extendedDescription := d)
    {
      extendedDescription := d;
    }

    method SetFlags(f: Flags)
      modifies this
      ensures Fields() == old(Fields()).(flags := Some(f))
    {
      flags := Some(f);
    }

    /** `parameters` keeps a copy of the parameters given. */
    method Parameters(ps: seq<Parameter>)
      modifies this
      ensures Fields() == old(Fields()).(parameters := ps)
    {
      parameters := ps;
    }

    method Permission(p: Option<string>)
      modifies this
      ensures Fields() == old(Fields()).(permission := p)
    {
      permission := p;
    }

    method InputTokenizer(t: TokenizerConfig)
      modifies this
      ensures Fields() == old(Fields()).(inputTokenizer := t)
    {
      inputTokenizer := t;
    }

    method Build() returns (r: Result<Specification>)
      ensures r == Built(Fields())
    {
      if |children| == 0 && executor.None? {
        return Err(Crash("IllegalStateException"));
      }
      r := Ok(Specification(parameters, children, behavior, inputTokenizer, flags, permission,
                            shortDescription, extendedDescription, requirePermissionForChildren));
    }

    method Reset()
      modifies this
      ensures Fields() == DEFAULTS
    {
      parameters, children, behavior, inputTokenizer := [], map[], Rethrow, LENIENT_QUOTED_STRING;
      executor, flags, permission, shortDescription, extendedDescription := None, None, None, None, None;
      requirePermissionForChildren := true;
    }
  }

  /** The inner loop of `addChildren`: the keys of one child, lower-cased, into the staging map. */
  method StageKeys(keys: seq<string>, child: nat, ghost before: seq<(string, nat)>, stage: map<string, nat>)
    returns (stage': map<string, nat>, ok: bool)
    requires Stage(before) == Ok(stage)
    ensures ok <==> Stage(before + KeyedEntry((keys, child))).Ok?
    ensures ok ==> Stage(before + KeyedEntry((keys, child))) == Ok(stage')
  {
    ghost var ke := KeyedEntry((keys, child));
    stage' := stage;
    assert before + ke[..0] == before;
    for j := 0 to |keys|
      invariant Stage(before + ke[..j]) == Ok(stage')
    {
      var key := ToLower(keys[j]);
      KeyedEntryStep(before, keys, child, j);
      StageStep(before + ke[..j], key, child, stage');
      if key in stage' {
        RestOfEntryFails(before, keys, child, j);
        return stage', false;
      }
      stage' := stage'[key := child];
    }
    assert ke[..|keys|] == ke;
    ok := true;
  }

  lemma KeyedEntryStep(before: seq<(string, nat)>, keys: seq<string>, child: nat, j: nat)
    requires j < |keys|
    ensures before + KeyedEntry((keys, child))[..j + 1] == before + KeyedEntry((keys, child))[..j] + [(ToLower(keys[j]), child)]
  {
    var ke := KeyedEntry((keys, child));
    assert ke[..j + 1] == ke[..j] + [ke[j]];
  }

  /** Staging one more pair: a key already staged fails, a new one is added. */
  lemma StageStep(pre: seq<(string, nat)>, key: string, child: nat, stage: map<string, nat>)
    requires Stage(pre) == Ok(stage)
    ensures key in stage ==> Stage(pre + [(key, child)]).Err?
    ensures key !in stage ==> Stage(pre + [(key, child)]) == Ok(stage[key := child])
  {
    assert (pre + [(key, child)])[..|pre|] == pre;
  }

  /** A failure within an entry's keys is a failure of the whole entry. */
  lemma RestOfEntryFails(before: seq<(string, nat)>, keys: seq<string>, child: nat, j: nat)
    requires j < |keys| && Stage(before + KeyedEntry((keys, child))[..j + 1]).Err?
    ensures Stage(before + KeyedEntry((keys, child))).Err?
  {
    var ke := KeyedEntry((keys, child));
    assert before + ke == before + ke[..j + 1] + ke[j + 1..];
    StageFailsOnExtension(before + ke[..j + 1], ke[j + 1..]);
  }

  /** Once the staging fails, it fails for every longer list of pairs. */
  lemma {:induction false} StageFailsOnExtension(pairs: seq<(string, nat)>, more: seq<(string, nat)>)
    requires Stage(pairs).Err?
    ensures Stage(pairs + more) == Stage(pairs)
    decreases |more|
  {
    if |more| == 0 {
      assert pairs + more == pairs;
    } else {
      var init := more[..|more| - 1];
      assert (pairs + more)[..|pairs + more| - 1] == pairs + init;
      StageFailsOnExtension(pairs, init);
    }
  }

  /** A repeated key among the first i entries is a repeated key among all of them. */
  lemma {:induction false} PrefixFailureStays(entries: ChildEntries, i: nat)
    requires i <= |entries| && Stage(Keyed(entries[..i])).Err?
    ensures Stage(Keyed(entries)) == Stage(Keyed(entries[..i]))
    decreases |entries| - i
  {
    if i == |entries| {
      assert entries[..i] == entries;
    } else {
      var init := entries[..|entries| - 1];
      assert init[..i] == entries[..i];
      PrefixFailureStays(init, i);
      StageFailsOnExtension(Keyed(init), KeyedEntry(entries[|entries| - 1]));
    }
  }

  // What `addChildren` means.

  /** A key among the pairs; the staging map holds exactly these keys. */
  predicate HasKey(pairs: seq<(string, nat)>, key: string) {
    exists i :: 0 <= i < |pairs| && pairs[i].0 == key
  }

  /** No key comes twice among the pairs. */
  predicate DistinctKeys(pairs: seq<(string, nat)>) {
    forall i, j :: 0 <= i < j < |pairs| ==> pairs[i].0 != pairs[j].0
  }

  /** No key among the pairs is registered already. */
  predicate NoneRegistered(pairs: seq<(string, nat)>, children: map<string, nat>) {
    forall i :: 0 <= i < |pairs| ==> pairs[i].0 !in children
  }

  /** A successful staging maps each key to its own child and holds no other key. */
  lemma {:induction false} StageContents(pairs: seq<(string, nat)>)
    requires Stage(pairs).Ok?
    ensures forall i :: 0 <= i < |pairs| ==>
      pairs[i].0 in Stage(pairs).value && Stage(pairs).value[pairs[i].0] == pairs[i].1
    ensures forall key :: key in Stage(pairs).value ==> HasKey(pairs, key)
    decreases |pairs|
  {
    if |pairs| > 0 {
      var n := |pairs| - 1;
      var init := pairs[..n];
      var m := Stage(init).value;
      StageContents(init);
      var m' := m[pairs[n].0 := pairs[n].1];
      assert pairs[n].0 !in m && Stage(pairs) == Ok(m');
      forall i | 0 <= i < |pairs|
        ensures pairs[i].0 in m' && m'[pairs[i].0] == pairs[i].1
      {
        if i < n {
          assert init[i] == pairs[i];
        }
      }
      forall key | key in m'
        ensures HasKey(pairs, key)
      {
        if key != pairs[n].0 {
          var i :| 0 <= i < n && init[i].0 == key;
          assert pairs[i].0 == key;
        } else {
          assert pairs[n].0 == key;
        }
      }
    }
  }

  /** The staging refuses exactly a list with a key twice. */
  lemma {:induction false} StageSucceedsIff(pairs: seq<(string, nat)>)
    ensures Stage(pairs).Ok? <==> DistinctKeys(pairs)
    decreases |pairs|
  {
    if |pairs| > 0 {
      var n := |pairs| - 1;
      var init := pairs[..n];
      StageSucceedsIff(init);
      if Stage(init).Err? {
        var i, j :| 0 <= i < j < n && init[i].0 == init[j].0;
        assert pairs[i].0 == pairs[j].0;
      } else {
        var m := Stage(init).value;
        StageContents(init);
        if pairs[n].0 in m {
          var i :| 0 <= i < n && init[i].0 == pairs[n].0;
          assert pairs[i].0 == pairs[n].0;
        } else {
          assert Stage(pairs).Ok?;
          forall i, j | 0 <= i < j < |pairs|
            ensures pairs[i].0 != pairs[j].0
          {
            assert init[i] == pairs[i];
            if j == n {
              assert init[i].0 in m;
            } else {
              assert init[j] == pairs[j];
            }
          }
        }
      }
    }
  }

  /** Every key of every entry, lower-cased, stands among the pairs with that entry's child. */
  lemma {:induction false} KeyedCoversEntries(entries: ChildEntries, n: nat, k: nat)
    requires n < |entries| && k < |entries[n].0|
    ensures (ToLower(entries[n].0[k]), entries[n].1) in Keyed(entries)
    decreases |entries|
  {
    var last := |entries| - 1;
    if n < last {
      var init := entries[..last];
      assert init[n] == entries[n];
      KeyedCoversEntries(init, n, k);
    } else {
      assert KeyedEntry(entries[n])[k] in KeyedEntry(entries[n]);
    }
  }

  /**
   * `addChildren` succeeds exactly when no lower-cased key comes twice in the
   * call and none is registered already.
   */
  lemma AddedChildrenSucceedsIff(children: map<string, nat>, entries: ChildEntries)
    ensures AddedChildren(children, entries).Ok? <==>
      DistinctKeys(Keyed(entries)) && NoneRegistered(Keyed(entries), children)
  {
    var pairs := Keyed(entries);
    StageSucceedsIff(pairs);
    if AddedChildren(children, entries).Ok? {
      assert Stage(pairs).Ok?;
      var stage := Stage(pairs).value;
      StageContents(pairs);
      assert !exists k :: k in children && k in stage;
      forall i | 0 <= i < |pairs|
        ensures pairs[i].0 !in children
      {
        assert pairs[i].0 in stage;
      }
    }
    if DistinctKeys(pairs) && NoneRegistered(pairs, children) {
      var stage := Stage(pairs).value;
      StageContents(pairs);
      forall k | k in stage
        ensures k !in children
      {
        assert HasKey(pairs, k);
        var i :| 0 <= i < |pairs| && pairs[i].0 == k;
      }
      assert AddedChildren(children, entries) == Ok(children + stage);
    }
  }

  /** A successful `addChildren` keeps every registered child and adds each key with its child, and no other key. */
  lemma AddedChildrenContents(children: map<string, nat>, entries: ChildEntries)
    requires AddedChildren(children, entries).Ok?
    ensures var pairs := Keyed(entries);
      var added := AddedChildren(children, entries).value;
      && (forall key :: key in added <==> key in children || HasKey(pairs, key))
      && (forall key :: key in children ==> added[key] == children[key])
      && (forall i :: 0 <= i < |pairs| ==> added[pairs[i].0] == pairs[i].1)
  {
    var pairs := Keyed(entries);
    StageSucceedsIff(pairs);
    StageContents(pairs);
    var stage := Stage(pairs).value;
    assert AddedChildren(children, entries).value == children + stage;
    forall key | HasKey(pairs, key)
      ensures key in stage
    {
      var i :| 0 <= i < |pairs| && pairs[i].0 == key;
    }
  }
}
