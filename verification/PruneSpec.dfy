/**
 Pruning an OpenAPI document: of the schemas only those are kept that the kept paths refer to, directly or through other
 schemas. A work list follows the `$ref`s; names can refer to each other in circles. The main results are about what is
 reachable, whatever the order in which the work list is emptied.
 */
module PruneSpec {
  import opened Wrappers

  /** JSON, with the fields of an object as a list. */
  datatype Node = Null | Scalar | Str(value: string) | Arr(items: seq<Node>) | Obj(fields: seq<Field>)

  datatype Field = Field(key: string, value: Node)

  type Schemas = map<string, Node>

  /** What follows the last `/`. */
  function LastPart(s: string): string {
    if s == "" || s[|s| - 1] == '/' then "" else LastPart(s[..|s| - 1]) + [s[|s| - 1]]
  }

  lemma {:induction false} LastPartIsWhatFollows(s: string)
    ensures var r := LastPart(s); var k := |s| - |r|;
      k >= 0 && s[k..] == r && '/' !in r && (k > 0 ==> s[k - 1] == '/')
    decreases |s|
  {
    if s != "" && s[|s| - 1] != '/' {
      var init := s[..|s| - 1];
      LastPartIsWhatFollows(init);
      var k := |init| - |LastPart(init)|;
      assert s[k..] == init[k..] + [s[|s| - 1]];
    }
  }

  /** The children of a node: the items of a list, the values of an object. */
  function Child(node: Node, i: nat): Option<Node> {
    if node.Arr? && i < |node.items| then Some(node.items[i])
    else if node.Obj? && i < |node.fields| then Some(node.fields[i].value)
    else None
  }

  /** The node that a path of positions leads to. */
  function Inside(node: Node, path: seq<nat>): Option<Node>
    decreases |path|
  {
    if path == [] then Some(node)
    else if Child(node, path[0]).Some? then Inside(Child(node, path[0]).value, path[1..])
    else None
  }

  predicate Refers(field: Field, name: string) {
    field.key == "$ref" && field.value.Str? && LastPart(field.value.value) == name
  }

  predicate HasRef(node: Node, name: string) {
    node.Obj? && exists i :: 0 <= i < |node.fields| && Refers(node.fields[i], name)
  }

  /** Somewhere in the node there is an object with a `$ref` to the name. */
  ghost predicate Mentions(node: Node, name: string) {
    exists path: seq<nat> :: LeadsToRef(node, path, name)
  }

  predicate LeadsToRef(node: Node, path: seq<nat>, name: string) {
    Inside(node, path).Some? && HasRef(Inside(node, path).value, name)
  }

  lemma LeadsByParts(node: Node, path: seq<nat>, name: string)
    ensures path == [] ==> (LeadsToRef(node, path, name) <==> HasRef(node, name))
    ensures path != [] ==>
      (LeadsToRef(node, path, name) <==> Child(node, path[0]).Some? && LeadsToRef(Child(node, path[0]).value, path[1..], name))
  {
    hide HasRef, Child;
  }

  ghost predicate ChildMentions(node: Node, i: nat, name: string) {
    Child(node, i).Some? && Mentions(Child(node, i).value, name)
  }

  /** A name is mentioned by an object itself, or by one of the children. */
  lemma MentionsByParts(node: Node, name: string)
    ensures Mentions(node, name) <==> HasRef(node, name) || exists i: nat :: ChildMentions(node, i, name)
  {
    hide HasRef, Child, LeadsToRef;
    if Mentions(node, name) {
      var path: seq<nat> :| LeadsToRef(node, path, name);
      LeadsByParts(node, path, name);
      if path != [] {
        assert ChildMentions(node, path[0], name);
      }
    }
    if HasRef(node, name) {
      var none: seq<nat> := [];
      LeadsByParts(node, none, name);
      assert LeadsToRef(node, none, name);
    }
    if i: nat :| ChildMentions(node, i, name) {
      var path: seq<nat> :| LeadsToRef(Child(node, i).value, path, name);
      assert ([i] + path)[1..] == path;
      LeadsByParts(node, [i] + path, name);
      assert LeadsToRef(node, [i] + path, name);
    }
  }

  /** The names mentioned by the first `n` children, and by the node's own fields among them. */
  ghost predicate MentionsUpTo(node: Node, n: nat, name: string) {
    exists i: nat :: i < n && MentionsAt(node, i, name)
  }

  ghost predicate MentionsAt(node: Node, i: nat, name: string) {
    ChildMentions(node, i, name) || RefersAt(node, i, name)
  }

  predicate RefersAt(node: Node, i: nat, name: string) {
    node.Obj? && i < |node.fields| && Refers(node.fields[i], name)
  }

  lemma HasRefAt(node: Node, name: string)
    ensures HasRef(node, name) <==> exists i: nat :: RefersAt(node, i, name)
  {
    hide Refers;
    if i: nat :| RefersAt(node, i, name) {
      assert Refers(node.fields[i], name);
    }
    if HasRef(node, name) {
      var i :| 0 <= i < |node.fields| && Refers(node.fields[i], name);
      assert RefersAt(node, i, name);
    }
  }

  function Count(node: Node): nat {
    if node.Arr? then |node.items| else if node.Obj? then |node.fields| else 0
  }

  lemma MentionsWithin(node: Node, i: nat, name: string)
    requires MentionsAt(node, i, name)
    ensures i < Count(node)
  {
    hide Mentions, Refers;
  }

  lemma MentionsAll(node: Node, name: string)
    ensures MentionsUpTo(node, Count(node), name) <==> Mentions(node, name)
  {
    hide Mentions, HasRef, Child, RefersAt, ChildMentions, Count;
    MentionsByParts(node, name);
    HasRefAt(node, name);
    forall i: nat | MentionsAt(node, i, name)
      ensures i < Count(node)
    {
      MentionsWithin(node, i, name);
    }
    if i: nat :| ChildMentions(node, i, name) {
      assert MentionsAt(node, i, name);
    }
    if i: nat :| RefersAt(node, i, name) {
      assert MentionsAt(node, i, name);
    }
  }

  lemma MentionsOneMore(node: Node, n: nat, name: string)
    ensures MentionsUpTo(node, n + 1, name) <==> MentionsUpTo(node, n, name) || MentionsAt(node, n, name)
  {
  }

  /** What one more field or item adds. */
  lemma FieldMentions(node: Node, i: nat, name: string)
    requires node.Obj? && i < |node.fields|
    ensures var field := node.fields[i];
      MentionsUpTo(node, i + 1, name) <==> (MentionsUpTo(node, i, name) ||
        if field.key == "$ref" && field.value.Str? then LastPart(field.value.value) == name else Mentions(field.value, name))
  {
    hide Mentions, MentionsUpTo;
    MentionsOneMore(node, i, name);
    var field := node.fields[i];
    if field.value.Str? {
      LeafMentionsNothing(field.value, name);
    }
  }

  lemma ItemMentions(node: Node, i: nat, name: string)
    requires node.Arr? && i < |node.items|
    ensures MentionsUpTo(node, i + 1, name) <==> MentionsUpTo(node, i, name) || Mentions(node.items[i], name)
  {
    hide Mentions, MentionsUpTo;
    MentionsOneMore(node, i, name);
  }

  lemma LeafMentionsNothing(node: Node, name: string)
    requires !node.Arr? && !node.Obj?
    ensures !Mentions(node, name)
  {
    MentionsAll(node, name);
  }

  /** `_collect_refs`: adds exactly the names that the node mentions. */
  method CollectRefs(node: Node, given: set<string>) returns (out: set<string>)
    ensures forall name :: name in out <==> name in given || Mentions(node, name)
    decreases node
  {
    hide Mentions, MentionsUpTo, LastPart;
    out := given;
    forall name
      ensures MentionsUpTo(node, Count(node), name) <==> Mentions(node, name)
      ensures !MentionsUpTo(node, 0, name)
    {
      MentionsAll(node, name);
      MentionsNoneYet(node, name);
    }
    if node.Obj? {
      for i := 0 to |node.fields|
        invariant forall name :: name in out <==> name in given || MentionsUpTo(node, i, name)
      {
        var field := node.fields[i];
        forall name {
          FieldMentions(node, i, name);
        }
        if field.key == "$ref" && field.value.Str? {
          out := out + {LastPart(field.value.value)};
        } else {
          out := CollectRefs(field.value, out);
        }
      }
    } else if node.Arr? {
      for i := 0 to |node.items|
        invariant forall name :: name in out <==> name in given || MentionsUpTo(node, i, name)
      {
        forall name {
          ItemMentions(node, i, name);
        }
        out := CollectRefs(node.items[i], out);
      }
    }
  }

  lemma MentionsNoneYet(node: Node, name: string)
    ensures !MentionsUpTo(node, 0, name)
  {
  }

  // ---------------------------------------------------------------------------------------------
  // Reachability
  // ---------------------------------------------------------------------------------------------

  /** A schema that is not there, or is `null`, counts as missing. */
  predicate Missing(schemas: Schemas, name: string) {
    name !in schemas || schemas[name] == Null
  }

  /** Each name of the chain is mentioned by the schema of the name before. */
  ghost predicate Chain(schemas: Schemas, chain: seq<string>) {
    forall i :: 0 < i < |chain| ==> Link(schemas, chain[i - 1], chain[i])
  }

  ghost predicate Link(schemas: Schemas, from: string, to: string) {
    !Missing(schemas, from) && Mentions(schemas[from], to)
  }

  ghost predicate Reached(root: Node, schemas: Schemas, name: string, chain: seq<string>) {
    chain != [] && Mentions(root, chain[0]) && chain[|chain| - 1] == name && Chain(schemas, chain)
  }

  /** There is a chain of references to the name, from the root on. */
  ghost predicate Reachable(root: Node, schemas: Schemas, name: string) {
    exists chain: seq<string> :: Reached(root, schemas, name, chain)
  }

  /** What the root mentions is in the set, and what its schemas mention. */
  ghost predicate Closed(root: Node, schemas: Schemas, names: set<string>) {
    && (forall name :: Mentions(root, name) ==> name in names)
    && (forall from, to :: from in names && Link(schemas, from, to) ==> to in names)
  }

  /** Whatever is closed under references holds all that is reachable. */
  lemma {:induction false} ReachableIsLeast(root: Node, schemas: Schemas, names: set<string>, name: string, chain: seq<string>)
    requires Closed(root, schemas, names) && Reached(root, schemas, name, chain)
    ensures name in names
    decreases |chain|
  {
    hide Mentions, Link;
    var n := |chain| - 1;
    if n > 0 {
      assert Link(schemas, chain[n - 1], chain[n]);
      ChainPrefix(schemas, chain, n);
      assert Reached(root, schemas, chain[n - 1], chain[..n]);
      ReachableIsLeast(root, schemas, names, chain[n - 1], chain[..n]);
    }
  }

  lemma ReachableFromRoot(root: Node, schemas: Schemas, name: string)
    requires Mentions(root, name)
    ensures Reachable(root, schemas, name)
  {
    assert Reached(root, schemas, name, [name]);
  }

  lemma ReachableFurther(root: Node, schemas: Schemas, from: string, to: string)
    requires Reachable(root, schemas, from) && Link(schemas, from, to)
    ensures Reachable(root, schemas, to)
  {
    hide Mentions, Link;
    var chain: seq<string> :| Reached(root, schemas, from, chain);
    var longer := chain + [to];
    forall i | 0 < i < |longer|
      ensures Link(schemas, longer[i - 1], longer[i])
    {
      if i < |chain| {
        assert Link(schemas, chain[i - 1], chain[i]);
      }
    }
    assert Chain(schemas, longer);
    assert Reached(root, schemas, to, longer);
  }

  // ---------------------------------------------------------------------------------------------
  // The work list
  // ---------------------------------------------------------------------------------------------

  /** Python's `list(names)`: the members in some order. */
  method Listed(names: set<string>) returns (list: seq<string>)
    ensures forall name :: name in list <==> name in names
  {
    list := [];
    var left := names;
    while left != {}
      invariant left <= names
      invariant forall name :: name in list <==> name in names && name !in left
      decreases left
    {
      var name :| name in left;
      left := left - {name};
      list := list + [name];
    }
  }

  datatype Outcome = Kept(names: set<string>) | Dangling(name: string)

  /** What is seen or waiting is reachable; what has been seen is there, and all it mentions is seen or waiting. */
  ghost predicate Exploring(root: Node, schemas: Schemas, seen: set<string>, stack: seq<string>) {
    && (forall name :: name in seen || name in stack ==> Reachable(root, schemas, name))
    && (forall name :: Mentions(root, name) ==> name in seen || name in stack)
    && (forall name :: name in seen ==> !Missing(schemas, name))
    && (forall from, to :: from in seen && Link(schemas, from, to) ==> to in seen || to in stack)
  }

  lemma ExploringSeen(root: Node, schemas: Schemas, seen: set<string>, stack: seq<string>)
    requires stack != [] && stack[|stack| - 1] in seen && Exploring(root, schemas, seen, stack)
    ensures Exploring(root, schemas, seen, stack[..|stack| - 1])
  {
    StackSplit(stack);
  }

  lemma StackSplit(stack: seq<string>)
    requires stack != []
    ensures forall name :: name in stack <==> name in stack[..|stack| - 1] || name == stack[|stack| - 1]
  {
    assert stack == stack[..|stack| - 1] + [stack[|stack| - 1]];
  }

  lemma ExploringNew(root: Node, schemas: Schemas, seen: set<string>, stack: seq<string>, found: set<string>, more: seq<string>)
    requires stack != [] && Exploring(root, schemas, seen, stack)
    requires var name := stack[|stack| - 1];
      && !Missing(schemas, name) && (forall to :: to in found <==> Mentions(schemas[name], to))
      && (forall to :: to in more <==> to in found - (seen + {name}))
    ensures Exploring(root, schemas, seen + {stack[|stack| - 1]}, stack[..|stack| - 1] + more)
  {
    hide Mentions, Reachable;
    var name := stack[|stack| - 1];
    StackSplit(stack);
    forall to | to in more
      ensures Reachable(root, schemas, to)
    {
      assert Link(schemas, name, to);
      ReachableFurther(root, schemas, name, to);
    }
  }

  /** The work list has run dry: what has been seen is what is reachable. */
  lemma ExploredIsReachable(root: Node, schemas: Schemas, seen: set<string>)
    requires Exploring(root, schemas, seen, [])
    ensures forall name :: name in seen <==> Reachable(root, schemas, name)
    ensures forall name :: Reachable(root, schemas, name) ==> !Missing(schemas, name)
  {
    hide Mentions;
    assert Closed(root, schemas, seen);
    forall name | Reachable(root, schemas, name)
      ensures name in seen
    {
      var chain: seq<string> :| Reached(root, schemas, name, chain);
      ReachableIsLeast(root, schemas, seen, name, chain);
    }
  }

  /**
   `_transitive_schemas`. Main result: it comes to an end, with all that is reachable and nothing else, or with a
   reachable name that has no schema; and it fails if and only if there is such a name.
   */
  method TransitiveSchemas(ghost root: Node, seeds: set<string>, schemas: Schemas) returns (outcome: Outcome)
    requires forall name :: name in seeds <==> Mentions(root, name)
    ensures outcome.Kept? ==> forall name :: name in outcome.names <==> Reachable(root, schemas, name)
    ensures outcome.Dangling? ==> Reachable(root, schemas, outcome.name) && Missing(schemas, outcome.name)
    ensures outcome.Dangling? <==> exists name :: Reachable(root, schemas, name) && Missing(schemas, name)
  {
    hide Mentions, Reachable;
    var seen: set<string> := {};
    var stack := Listed(seeds);
    forall name | Mentions(root, name)
      ensures Reachable(root, schemas, name)
    {
      ReachableFromRoot(root, schemas, name);
    }
    while stack != []
      invariant Exploring(root, schemas, seen, stack) && seen <= schemas.Keys
      decreases schemas.Keys - seen, |stack|
    {
      var name := stack[|stack| - 1];
      if name in seen {
        ExploringSeen(root, schemas, seen, stack);
        stack := stack[..|stack| - 1];
        continue;
      }
      if name !in schemas || schemas[name] == Null {
        assert name in stack;
        return Dangling(name);
      }
      var found := CollectRefs(schemas[name], {});
      var more := Listed(found - (seen + {name}));
      ExploringNew(root, schemas, seen, stack, found, more);
      assert name in schemas.Keys - seen && name !in schemas.Keys - (seen + {name});
      seen := seen + {name};
      stack := stack[..|stack| - 1] + more;
    }
    ExploredIsReachable(root, schemas, seen);
    outcome := Kept(seen);
  }

  // ---------------------------------------------------------------------------------------------
  // The document
  // ---------------------------------------------------------------------------------------------

  ghost predicate Intact(root: Node, schemas: Schemas) {
    forall name :: Reachable(root, schemas, name) ==> !Missing(schemas, name)
  }

  /** `after` has the reachable schemas of `before`, unchanged, and no others; none of them was missing. */
  ghost predicate Pruned(root: Node, before: Schemas, after: Schemas) {
    && Intact(root, before)
    && (forall name :: name in after <==> Reachable(root, before, name))
    && (forall name :: name in after && name in before ==> after[name] == before[name])
  }

  /** The parts of the document that pruning deals with; `None` where the key is absent. */
  class Document {
    var paths: Option<Node>
    var schemas: Option<Schemas>

    constructor (paths: Option<Node>, schemas: Option<Schemas>)
      ensures this.paths == paths && this.schemas == schemas
    {
      this.paths, this.schemas := paths, schemas;
    }

    function Root(): Node
      reads this
    {
      if paths.Some? then paths.value else Obj([])
    }

    /** `prune_unused_schemas`: gives the dangling name when it aborts, and then changes nothing. */
    method PruneUnusedSchemas() returns (dangling: Option<string>)
      modifies this`schemas
      ensures schemas.None? <==> old(schemas).None?
      ensures dangling.None? && schemas.Some? ==>
        Pruned(if paths.Some? then paths.value else Obj([]), old(schemas.value), schemas.value)
      ensures dangling.Some? ==> schemas.Some? && schemas == old(schemas)
      ensures dangling.Some? ==>
        && Reachable(if paths.Some? then paths.value else Obj([]), schemas.value, dangling.value)
        && (dangling.value !in schemas.value || schemas.value[dangling.value] == Null)
    {
      if schemas.None? {
        return None;
      }
      hide Mentions, Reachable;
      var seeds := CollectRefs(Root(), {});
      var outcome := TransitiveSchemas(Root(), seeds, schemas.value);
      match outcome
      case Dangling(name) =>
        dangling := Some(name);
      case Kept(names) =>
        forall name | name in names
          ensures name in schemas.value
        {
          assert Reachable(Root(), schemas.value, name);
        }
        schemas := Some(map name | name in names :: schemas.value[name]);
        dangling := None;
    }
  }

  /** What is reachable among the reachable is the same. */
  lemma {:induction false} ReachedStill(root: Node, before: Schemas, after: Schemas, name: string, chain: seq<string>)
    requires Pruned(root, before, after) && Reached(root, before, name, chain)
    ensures Reachable(root, after, name)
    decreases |chain|
  {
    hide Mentions;
    var n := |chain| - 1;
    if n == 0 {
      ReachableFromRoot(root, after, name);
    } else {
      assert Link(before, chain[n - 1], chain[n]);
      ChainPrefix(before, chain, n);
      assert Reached(root, before, chain[n - 1], chain[..n]);
      ReachedStill(root, before, after, chain[n - 1], chain[..n]);
      assert Reachable(root, before, chain[n - 1]);
      hide Reachable;
      assert Link(after, chain[n - 1], chain[n]);
      ReachableFurther(root, after, chain[n - 1], chain[n]);
    }
  }

  lemma ChainPrefix(schemas: Schemas, chain: seq<string>, n: nat)
    requires Chain(schemas, chain) && n <= |chain|
    ensures Chain(schemas, chain[..n])
  {
    forall i | 0 < i < n
      ensures Link(schemas, chain[..n][i - 1], chain[..n][i])
    {
      assert Link(schemas, chain[i - 1], chain[i]);
    }
  }

  lemma ReachedBefore(root: Node, before: Schemas, after: Schemas, name: string)
    requires Pruned(root, before, after) && Reachable(root, after, name)
    ensures Reachable(root, before, name)
  {
    hide Mentions;
    var chain: seq<string> :| Reached(root, after, name, chain);
    forall i | 0 < i < |chain|
      ensures Link(before, chain[i - 1], chain[i])
    {
      assert Link(after, chain[i - 1], chain[i]);
    }
    assert Reached(root, before, name, chain);
  }

  /** Main result. A pruned document has no dangling `$ref`: what the paths and the kept schemas mention is there. */
  lemma NothingDangles(root: Node, before: Schemas, after: Schemas, name: string)
    requires Pruned(root, before, after)
    requires Mentions(root, name) || exists from :: from in after && Mentions(after[from], name)
    ensures !Missing(after, name)
  {
    hide Mentions, Reachable;
    if Mentions(root, name) {
      ReachableFromRoot(root, before, name);
    } else {
      var from :| from in after && Mentions(after[from], name);
      assert Reachable(root, before, from);
      assert Link(before, from, name);
      ReachableFurther(root, before, from, name);
    }
  }

  /** Main result. A second pruning cannot abort and changes nothing. */
  lemma PruningAgainChangesNothing(root: Node, before: Schemas, after: Schemas, again: Schemas)
    requires Pruned(root, before, after)
    ensures Intact(root, after) && (Pruned(root, after, again) <==> again == after)
  {
    hide Mentions;
    forall name
      ensures Reachable(root, after, name) <==> name in after
    {
      if Reachable(root, after, name) {
        ReachedBefore(root, before, after, name);
      }
      if name in after {
        var chain: seq<string> :| Reached(root, before, name, chain);
        ReachedStill(root, before, after, name, chain);
      }
    }
    hide Reachable;
    assert forall name :: name in after ==> Reachable(root, before, name);
    assert Pruned(root, after, after);
    if Pruned(root, after, again) {
      assert again.Keys == after.Keys;
      assert again == after;
    }
  }
}
