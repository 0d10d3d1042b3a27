/**
 Installation of workspace skills: a revision is written to a staging directory, the active one is moved aside, the
 new one is moved in, and whatever a crash leaves behind is put right by the next start.

 `Disk` is the directory of skills. Each of its operations may succeed, fail or be cut short by a crash; renames
 are atomic, writes and recursive removals are not. The installed trees of one skill are followed by two ghost
 parameters: any skill name, and any set of trees that contains every complete revision of it.
 */
module Skills {
  import Strings
  import opened Wrappers

  /** The files of a skill: path within its directory to content. */
  type Tree = map<string, string>

  /** A small file that may be missing, cut short (and then is no JSON), or whole. */
  datatype Note<T> = Absent | Torn | Whole(value: T)

  /** A staging directory: `target.json`, `revision.json`, and the directories `new` and `old`. */
  datatype Stage = Stage(name: Note<string>, revision: Note<Option<string>>, next: Option<Tree>, backup: Option<Tree>)

  /** The active skills, the staging directories, and the index of installed revisions. */
  datatype Root = Root(targets: map<string, Tree>, stages: map<nat, Stage>, index: Note<map<string, string>>)

  /** `Missing` is the error for a source that does not exist. */
  datatype Outcome = Done | Missing | Failed | Crashed

  const SKILL_FILE := "SKILL.md"

  predicate NameChar(c: char) {
    'A' <= c <= 'Z' || 'a' <= c <= 'z' || '0' <= c <= '9' || c == '_' || c == '-'
  }

  /** A plain identifier that may also contain dots after its first character. */
  predicate SkillName(name: string) {
    name != "" && NameChar(name[0]) && forall i :: 0 < i < |name| ==> NameChar(name[i]) || name[i] == '.'
  }

  ghost predicate Only(s: string, allowed: string) {
    forall i :: 0 <= i < |s| ==> s[i] in allowed
  }

  /** The names written out. */
  lemma SkillNamesAre(name: string)
    ensures var chars := Strings.CAPITALS + Strings.SMALL + Strings.DIGITS + "_-";
      SkillName(name) <==> exists c, rest :: name == [c] + rest && c in chars && Only(rest, chars + ".")
  {
    var chars := Strings.CAPITALS + Strings.SMALL + Strings.DIGITS + "_-";
    hide NameChar;
    forall c: char
      ensures NameChar(c) <==> c in chars
      ensures NameChar(c) || c == '.' <==> c in chars + "."
    {
      NameCharIs(c);
    }
    if SkillName(name) {
      assert name == [name[0]] + name[1..];
      assert Only(name[1..], chars + ".");
    }
  }

  lemma NameCharIs(c: char)
    ensures NameChar(c) <==> c in Strings.CAPITALS + Strings.SMALL + Strings.DIGITS + "_-"
  {
    Strings.CapitalsAre(c);
    Strings.SmallAre(c);
    Strings.DigitsAre(c);
    assert "_-" == ['_', '-'];
    hide Strings.CAPITALS, Strings.SMALL, Strings.DIGITS;
  }

  // ---------------------------------------------------------------------------------------------
  // What must survive
  // ---------------------------------------------------------------------------------------------

  /** The stage would be put back as skill `n` by recovery. */
  predicate BacksUp(st: Stage, n: string) {
    st.name == Whole(n) && st.backup.Some?
  }

  /**
   Recovery can leave a complete revision active: it is active already, or every stage that recovery could put back is
   complete and there is one. A backup is only ever taken apart once the new revision has left its stage.
   */
  ghost predicate Recoverable(r: Root, n: string, good: set<Tree>) {
    && (n in r.targets ==> r.targets[n] in good)
    && (n !in r.targets ==> exists id :: id in r.stages && BacksUp(r.stages[id], n))
    && (forall id :: id in r.stages && BacksUp(r.stages[id], n) && (n !in r.targets || r.stages[id].next.Some?) ==>
          r.stages[id].backup.value in good)
  }

  /** What was possible stays possible. */
  ghost predicate Keeps(r: Root, r': Root, n: string, good: set<Tree>) {
    Recoverable(r, n, good) ==> Recoverable(r', n, good)
  }

  /** No stage left behind holds a damaged backup of `n`. */
  ghost predicate NoDamagedBackup(r: Root, n: string, good: set<Tree>) {
    forall id :: id in r.stages && BacksUp(r.stages[id], n) ==> r.stages[id].backup.value in good
  }

  /** An install of `tree` as `name` is harmless for `n`: it is another skill, or complete with no damaged backup about. */
  ghost predicate MayInstall(r: Root, name: string, tree: Tree, n: string, good: set<Tree>) {
    n == name ==> tree in good && NoDamagedBackup(r, n, good)
  }

  /** A complete revision has its skill file. */
  ghost predicate Complete(good: set<Tree>) {
    forall t :: t in good ==> "SKILL.md" in t
  }

  predicate SmallerTree(t: Option<Tree>, whole: Option<Tree>) {
    t == None || (whole.Some? && t.value.Keys <= whole.value.Keys && forall p :: p in t.value ==> t.value[p] == whole.value[p])
  }

  /** What a recursive removal that was cut short may leave of a stage. */
  predicate Remains(st: Stage, whole: Stage) {
    && (st.name == Absent || st.name == whole.name) && (st.revision == Absent || st.revision == whole.revision)
    && SmallerTree(st.next, whole.next) && SmallerTree(st.backup, whole.backup)
  }

  function TreeOf(files: seq<(string, string)>): Tree {
    if files == [] then map[] else TreeOf(files[..|files| - 1])[files[|files| - 1].0 := files[|files| - 1].1]
  }

  /** The name is a plain identifier and the archive has a skill file. */
  predicate Installable(name: string, files: seq<(string, string)>) {
    SkillName(name) && exists i :: 0 <= i < |files| && files[i].0 == "SKILL.md"
  }

  /** The tree holds exactly the paths of the files, and of a path that comes twice the last content. */
  lemma FilesAreInTree(files: seq<(string, string)>)
    ensures forall p :: p in TreeOf(files) <==> exists i :: 0 <= i < |files| && files[i].0 == p
    ensures forall i :: 0 <= i < |files| && (forall j :: i < j < |files| ==> files[j].0 != files[i].0) ==>
      files[i].0 in TreeOf(files) && TreeOf(files)[files[i].0] == files[i].1
  {
    PathsOfTree(files);
    LastContentOfTree(files);
  }

  lemma {:induction false} PathsOfTree(files: seq<(string, string)>)
    ensures forall p :: p in TreeOf(files) <==> exists i :: 0 <= i < |files| && files[i].0 == p
  {
    if files != [] {
      var n := |files| - 1;
      PathsOfTree(files[..n]);
      assert forall i :: 0 <= i < n ==> files[..n][i] == files[i];
      forall p | p in TreeOf(files[..n])
        ensures exists i :: 0 <= i < |files| && files[i].0 == p
      {
        var i :| 0 <= i < n && files[..n][i].0 == p;
        assert files[i].0 == p;
      }
    }
  }

  lemma {:induction false} LastContentOfTree(files: seq<(string, string)>)
    ensures forall i :: 0 <= i < |files| && (forall j :: i < j < |files| ==> files[j].0 != files[i].0) ==>
      files[i].0 in TreeOf(files) && TreeOf(files)[files[i].0] == files[i].1
  {
    if files != [] {
      var n := |files| - 1;
      LastContentOfTree(files[..n]);
      assert forall i :: 0 <= i < n ==> files[..n][i] == files[i];
    }
  }

  /** Of the active skills at most `name` is another one, or gone. */
  ghost predicate OthersStay(r: Root, r': Root, name: string) {
    forall m :: m != name ==> (m in r.targets <==> m in r'.targets) && (m in r.targets ==> r'.targets[m] == r.targets[m])
  }

  function TreeWith(t: Option<Tree>, path: string, content: string): Tree {
    (if t.Some? then t.value else map[])[path := content]
  }

  function WithStage(r: Root, id: nat, st: Stage): Root {
    r.(stages := r.stages[id := st])
  }

  function MovedAside(r: Root, id: nat, name: string): Root
    requires id in r.stages && name in r.targets
  {
    WithStage(r, id, r.stages[id].(backup := Some(r.targets[name]))).(targets := r.targets - {name})
  }

  function MovedIn(r: Root, id: nat, name: string): Root
    requires id in r.stages && r.stages[id].next.Some?
  {
    WithStage(r, id, r.stages[id].(next := None)).(targets := r.targets[name := r.stages[id].next.value])
  }

  function MovedBack(r: Root, id: nat, name: string): Root
    requires id in r.stages && r.stages[id].backup.Some?
  {
    WithStage(r, id, r.stages[id].(backup := None)).(targets := r.targets[name := r.stages[id].backup.value])
  }

  /** A stage that is no backup of `n`, before and after, has no part in the recovery of `n`. */
  lemma UnrelatedStage(r: Root, id: nat, st: Stage, n: string, good: set<Tree>)
    requires !BacksUp(st, n) && (id in r.stages ==> !BacksUp(r.stages[id], n))
    ensures Keeps(r, WithStage(r, id, st), n, good)
  {
    if Recoverable(r, n, good) && n !in r.targets {
      var b :| b in r.stages && BacksUp(r.stages[b], n);
      assert b in WithStage(r, id, st).stages && WithStage(r, id, st).stages[b] == r.stages[b];
    }
  }

  /** Nothing that recovery of `n` might need is in the stage. */
  predicate Expendable(r: Root, id: nat, n: string)
    requires id in r.stages
  {
    !BacksUp(r.stages[id], n) || (n in r.targets && r.stages[id].next == None)
  }

  lemma RemainsAreHarmless(r: Root, id: nat, rest: Stage, n: string, good: set<Tree>)
    requires id in r.stages && Expendable(r, id, n) && Remains(rest, r.stages[id])
    ensures Keeps(r, WithStage(r, id, rest), n, good)
  {
    if !BacksUp(r.stages[id], n) {
      UnrelatedStage(r, id, rest, n, good);
    }
  }

  lemma RemovalIsHarmless(r: Root, id: nat, n: string, good: set<Tree>)
    requires id in r.stages && Expendable(r, id, n)
    ensures Keeps(r, r.(stages := r.stages - {id}), n, good)
  {
    if Recoverable(r, n, good) && n !in r.targets {
      var b :| b in r.stages && BacksUp(r.stages[b], n);
      assert b in r.stages - {id} && (r.stages - {id})[b] == r.stages[b];
    }
  }

  lemma MovedAsideKeeps(r: Root, id: nat, name: string, n: string, good: set<Tree>)
    requires n == name ==> NoDamagedBackup(r, n, good)
    requires name in r.targets && id in r.stages && r.stages[id].name == Whole(name) && r.stages[id].backup == None
    ensures Keeps(r, MovedAside(r, id, name), n, good)
  {
    var r' := MovedAside(r, id, name);
    if n == name {
      assert id in r'.stages && BacksUp(r'.stages[id], n);
    } else if Recoverable(r, n, good) && n !in r.targets {
      var b :| b in r.stages && BacksUp(r.stages[b], n);
      assert b in r'.stages && BacksUp(r'.stages[b], n);
    }
  }

  lemma MovedInKeeps(r: Root, id: nat, name: string, n: string, good: set<Tree>)
    requires CanMoveIn(r, id, name) && r.stages[id].name == Whole(name)
    requires n == name ==> r.stages[id].next.value in good
    ensures Keeps(r, MovedIn(r, id, name), n, good)
  {
    var r' := MovedIn(r, id, name);
    if Recoverable(r, n, good) && n != name && n !in r.targets {
      var b :| b in r.stages && BacksUp(r.stages[b], n);
      assert b in r'.stages && BacksUp(r'.stages[b], n);
    }
  }

  lemma MovedBackKeeps(r: Root, id: nat, name: string, n: string, good: set<Tree>)
    requires CanMoveBack(r, id, name) && r.stages[id].name == Whole(name)
    ensures Keeps(r, MovedBack(r, id, name), n, good)
  {
    var r' := MovedBack(r, id, name);
    if n == name {
      assert BacksUp(r.stages[id], n);
    } else if Recoverable(r, n, good) && n !in r.targets {
      var b :| b in r.stages && BacksUp(r.stages[b], n);
      assert b in r'.stages && BacksUp(r'.stages[b], n);
    }
  }

  // ---------------------------------------------------------------------------------------------
  // File system operations
  // ---------------------------------------------------------------------------------------------

  class Disk {
    var root: Root
    /** How often the disk failed. */
    var faults: nat

    constructor (root: Root)
      ensures this.root == root && faults == 0
    {
      this.root, faults := root, 0;
    }

    /** The outcome of an operation is left to chance. */
    method Chance() returns (o: Outcome)
      modifies this`faults
      ensures o != Missing && faults == old(faults) + if o == Failed then 1 else 0
    {
      if * {
        return Done;
      } else if * {
        return Crashed;
      }
      faults := faults + 1;
      return Failed;
    }

    method MakeStage() returns (o: Outcome, id: nat)
      modifies this
      ensures o != Missing && faults == old(faults) + if o == Failed then 1 else 0
      ensures o == Failed ==> root == old(root)
      ensures o != Failed ==> id !in old(root.stages) && root == WithStage(old(root), id, Stage(Absent, Absent, None, None))
    {
      o := Chance();
      id := Fresh(root.stages.Keys);
      if o != Failed {
        root := WithStage(root, id, Stage(Absent, Absent, None, None));
      }
    }

    method WriteName(id: nat, name: string) returns (o: Outcome)
      requires id in root.stages
      modifies this
      ensures o != Missing && faults == old(faults) + if o == Failed then 1 else 0
      ensures id in root.stages && root == WithStage(old(root), id, old(root.stages[id]).(name := root.stages[id].name))
      ensures o == Done ==> root.stages[id].name == Whole(name)
    {
      o := Chance();
      var note := Whole(name);
      if o != Done {
        note := *;
      }
      root := WithStage(root, id, root.stages[id].(name := note));
    }

    method WriteRevision(id: nat, revision: Option<string>) returns (o: Outcome)
      requires id in root.stages
      modifies this
      ensures o != Missing && faults == old(faults) + if o == Failed then 1 else 0
      ensures id in root.stages && root == WithStage(old(root), id, old(root.stages[id]).(revision := root.stages[id].revision))
      ensures o == Done ==> root.stages[id].revision == Whole(revision)
    {
      o := Chance();
      var note := Whole(revision);
      if o != Done {
        note := *;
      }
      root := WithStage(root, id, root.stages[id].(revision := note));
    }

    /** Writes one file below `new`; cut short, it leaves anything there. */
    method WriteNew(id: nat, path: string, content: string) returns (o: Outcome)
      requires id in root.stages
      modifies this
      ensures o != Missing && faults == old(faults) + if o == Failed then 1 else 0
      ensures id in root.stages && root == WithStage(old(root), id, old(root.stages[id]).(next := root.stages[id].next))
      ensures o == Done ==> root.stages[id].next == Some(TreeWith(old(root.stages[id].next), path, content))
    {
      o := Chance();
      var tree := Some(TreeWith(root.stages[id].next, path, content));
      if o != Done {
        tree := *;
      }
      root := WithStage(root, id, root.stages[id].(next := tree));
    }

    /** `rename(target, old)`. */
    method MoveAside(id: nat, name: string) returns (o: Outcome)
      requires id in root.stages
      modifies this
      ensures faults == old(faults) + if o == Failed then 1 else 0
      ensures o == Missing ==> name !in old(root.targets)
      ensures o == Done ==> name in old(root.targets) && root == MovedAside(old(root), id, name)
      ensures o == Missing || o == Failed ==> root == old(root)
      ensures o == Crashed ==> root == old(root) || (name in old(root.targets) && root == MovedAside(old(root), id, name))
    {
      o := Chance();
      if o == Done && name !in root.targets {
        return Missing;
      }
      if name in root.targets && o != Failed {
        var moved: bool := *;
        if o == Done || moved {
          root := MovedAside(root, id, name);
        }
      }
    }

    /** `rename(new, target)`, which fails on a directory that is already there. */
    method MoveIn(id: nat, name: string) returns (o: Outcome)
      requires id in root.stages
      modifies this
      ensures o != Missing && faults >= old(faults) && (faults > old(faults) ==> o == Failed)
      ensures o == Failed && faults == old(faults) ==> !CanMoveIn(old(root), id, name)
      ensures o == Done ==> CanMoveIn(old(root), id, name) && root == MovedIn(old(root), id, name)
      ensures o == Failed ==> root == old(root)
      ensures o == Crashed ==> root == old(root) || (CanMoveIn(old(root), id, name) && root == MovedIn(old(root), id, name))
    {
      o := Chance();
      if o == Done && !CanMoveIn(root, id, name) {
        return Failed;
      }
      if o != Failed && CanMoveIn(root, id, name) {
        var moved: bool := *;
        if o == Done || moved {
          root := MovedIn(root, id, name);
        }
      }
    }

    /** `rename(old, target)`. */
    method MoveBack(id: nat, name: string) returns (o: Outcome)
      requires id in root.stages
      modifies this
      ensures o != Missing && faults >= old(faults) && (faults > old(faults) ==> o == Failed)
      ensures o == Failed && faults == old(faults) ==> !CanMoveBack(old(root), id, name)
      ensures o == Done ==> CanMoveBack(old(root), id, name) && root == MovedBack(old(root), id, name)
      ensures o == Failed ==> root == old(root)
      ensures o == Crashed ==> root == old(root) || (CanMoveBack(old(root), id, name) && root == MovedBack(old(root), id, name))
    {
      o := Chance();
      if o == Done && !CanMoveBack(root, id, name) {
        return Failed;
      }
      if o != Failed && CanMoveBack(root, id, name) {
        var moved: bool := *;
        if o == Done || moved {
          root := MovedBack(root, id, name);
        }
      }
    }

    /** `rm(old)`. */
    method RemoveOld(id: nat) returns (o: Outcome)
      requires id in root.stages
      modifies this
      ensures o != Missing && faults == old(faults) + if o == Failed then 1 else 0
      ensures id in root.stages && SmallerTree(root.stages[id].backup, old(root.stages[id].backup))
      ensures root == WithStage(old(root), id, old(root.stages[id]).(backup := root.stages[id].backup))
      ensures o == Done ==> root.stages[id].backup == None
    {
      o := Chance();
      var rest: Option<Tree> := None;
      if o != Done {
        rest :| SmallerTree(rest, root.stages[id].backup);
      }
      root := WithStage(root, id, root.stages[id].(backup := rest));
    }

    /** `rm` of a whole staging directory. */
    method RemoveStage(id: nat) returns (o: Outcome)
      requires id in root.stages
      modifies this
      ensures o != Missing && faults == old(faults) + if o == Failed then 1 else 0
      ensures o == Done ==> root == old(root).(stages := old(root.stages) - {id})
      ensures o != Done ==> id in root.stages && Remains(root.stages[id], old(root.stages[id]))
      ensures o != Done ==> root == WithStage(old(root), id, root.stages[id])
    {
      o := Chance();
      if o == Done {
        root := root.(stages := root.stages - {id});
      } else {
        var whole := root.stages[id];
        assert Remains(whole, whole);
        var rest :| Remains(rest, whole);
        root := WithStage(root, id, rest);
      }
    }

    method WriteIndex(index: map<string, string>) returns (o: Outcome)
      modifies this
      ensures o != Missing && faults == old(faults) + if o == Failed then 1 else 0
      ensures root == old(root).(index := root.index) && (o == Done ==> root.index == Whole(index))
    {
      o := Chance();
      var note := Whole(index);
      if o != Done {
        note := *;
      }
      root := root.(index := note);
    }

    // -------------------------------------------------------------------------------------------
    // unpackSkill
    // -------------------------------------------------------------------------------------------

    /**
     `unpackSkill`. Missing or Failed stand for an exception: an archive that is not a skill is refused with nothing
     touched, and any other is installed unless the disk fails, whether or not the skill is active already.
     */
    method UnpackSkill(name: string, files: seq<(string, string)>, previousRevision: Option<string>,
                       ghost n: string, ghost good: set<Tree>) returns (o: Outcome)
      modifies this
      ensures MayInstall(old(root), name, TreeOf(files), n, good) ==> Keeps(old(root), root, n, good)
      ensures o == Done ==> name in root.targets && root.targets[name] == TreeOf(files)
      ensures faults >= old(faults)
      ensures !Installable(name, files) ==> o == Failed && root == old(root) && faults == old(faults)
      ensures Installable(name, files) && o != Crashed && faults == old(faults) ==> o == Done
      ensures OthersStay(old(root), root, name)
      ensures n != name && NoDamagedBackup(old(root), n, good) ==> NoDamagedBackup(root, n, good)
    {
      FilesAreInTree(files);
      if !SkillName(name) || SKILL_FILE !in TreeOf(files) {
        return Failed;
      }
      var id;
      ghost var before := root;
      o, id := MakeStage();
      if o != Failed {
        UnrelatedStage(before, id, root.stages[id], n, good);
      }
      if o != Done {
        return;
      }
      var preserveStaging;
      o, preserveStaging := Install(id, name, files, previousRevision, n, good);
      if o != Crashed && !preserveStaging {
        before := root;
        var removed := RemoveStage(id);
        if removed != Done {
          RemainsAreHarmless(before, id, root.stages[id], n, good);
        } else {
          RemovalIsHarmless(before, id, n, good);
        }
        if removed == Crashed {
          return Crashed;
        }
      }
    }

    /** The guarded part of `unpackSkill`. */
    method Install(id: nat, name: string, files: seq<(string, string)>, previousRevision: Option<string>,
                   ghost n: string, ghost good: set<Tree>) returns (o: Outcome, preserveStaging: bool)
      requires id in root.stages && root.stages[id] == Stage(Absent, Absent, None, None)
      requires files != []
      modifies this
      ensures MayInstall(old(root), name, TreeOf(files), n, good) ==> Keeps(old(root), root, n, good)
      ensures id in root.stages && OnlyStage(old(root), root, id) && (n != name ==> !BacksUp(root.stages[id], n))
      ensures o == Done ==> name in root.targets && root.targets[name] == TreeOf(files)
      ensures faults >= old(faults) && (o != Crashed && faults == old(faults) ==> o == Done)
      ensures OthersStay(old(root), root, name)
      ensures o != Crashed && !preserveStaging ==> Expendable(root, id, n)
    {
      preserveStaging := false;
      o := WriteStage(id, name, files, previousRevision, n, good);
      if o != Done {
        return;
      }
      hide Recoverable;
      o, preserveStaging := SwapIn(id, name, n, good);
    }

    /** Fills the staging directory. */
    method WriteStage(id: nat, name: string, files: seq<(string, string)>, previousRevision: Option<string>,
                      ghost n: string, ghost good: set<Tree>) returns (o: Outcome)
      requires id in root.stages && root.stages[id] == Stage(Absent, Absent, None, None) && files != []
      modifies this
      ensures Keeps(old(root), root, n, good)
      ensures id in root.stages && root == WithStage(old(root), id, root.stages[id]) && root.stages[id].backup == None
      ensures faults >= old(faults) && (o != Crashed && faults == old(faults) ==> o == Done)
      ensures o == Done ==> root.stages[id] == Stage(Whole(name), Whole(previousRevision), Some(TreeOf(files)), None)
    {
      ghost var before := root;
      o := WriteName(id, name);
      UnrelatedStage(before, id, root.stages[id], n, good);
      if o != Done {
        return;
      }
      before := root;
      o := WriteRevision(id, previousRevision);
      UnrelatedStage(before, id, root.stages[id], n, good);
      if o != Done {
        return;
      }
      o := WriteFiles(id, files, n, good);
    }

    /** Moves the active skill aside and the staged one in, or everything back. */
    method SwapIn(id: nat, name: string, ghost n: string, ghost good: set<Tree>) returns (o: Outcome, preserveStaging: bool)
      requires id in root.stages && root.stages[id].name == Whole(name) && root.stages[id].next.Some? && root.stages[id].backup == None
      modifies this
      ensures MayInstall(old(root), name, old(root.stages[id].next.value), n, good) ==> Keeps(old(root), root, n, good)
      ensures id in root.stages && root.stages[id].name == Whole(name) && root.stages == old(root.stages)[id := root.stages[id]]
      ensures o == Done ==> name in root.targets && root.targets[name] == old(root.stages[id].next.value)
      ensures faults >= old(faults) && (o != Crashed && faults == old(faults) ==> o == Done)
      ensures OthersStay(old(root), root, name)
      ensures o != Crashed && !preserveStaging ==> Expendable(root, id, n)
    {
      hide Recoverable, NoDamagedBackup, OthersStay;
      preserveStaging := false;
      ghost var start := root;
      o := TakeOut(id, name, n, good);
      if o == Crashed || o == Failed {
        return;
      }
      var movedOld := o == Done;
      ghost var out := root;
      o := BringIn(id, name, n, good);
      OthersStayOn(start, out, root, name);
      if o == Crashed {
        return;
      }
      ghost var before := root;
      if o != Done {
        if movedOld {
          var crashed;
          crashed, preserveStaging := GiveBack(id, name, n, good);
          OthersStayOn(start, before, root, name);
          if crashed {
            return Crashed, false;
          }
        }
        return;
      }
      if movedOld {
        var crashed := DropOld(id, n, good);
        OthersStayOn(start, before, root, name);
        if crashed {
          return Crashed, false;
        }
      }
    }

    /** Moves the active revision, if there is one, into the stage. */
    method TakeOut(id: nat, name: string, ghost n: string, ghost good: set<Tree>) returns (o: Outcome)
      requires id in root.stages && root.stages[id].name == Whole(name) && root.stages[id].backup == None
      modifies this
      ensures (n == name ==> NoDamagedBackup(old(root), n, good)) ==> Keeps(old(root), root, n, good)
      ensures OthersStay(old(root), root, name) && faults == old(faults) + if o == Failed then 1 else 0
      ensures id in root.stages && root.stages == old(root.stages)[id := old(root.stages[id]).(backup := root.stages[id].backup)]
      ensures o == Done || o == Missing ==> name !in root.targets
      ensures o == Failed || o == Missing ==> root == old(root)
    {
      ghost var before := root;
      o := MoveAside(id, name);
      if root != before && (n == name ==> NoDamagedBackup(before, n, good)) {
        MovedAsideKeeps(before, id, name, n, good);
      }
    }

    /** Moves the staged revision in. */
    method BringIn(id: nat, name: string, ghost n: string, ghost good: set<Tree>) returns (o: Outcome)
      requires id in root.stages && root.stages[id].name == Whole(name) && root.stages[id].next.Some? && name !in root.targets
      modifies this
      ensures (n == name ==> old(root.stages[id].next.value) in good) ==> Keeps(old(root), root, n, good)
      ensures OthersStay(old(root), root, name) && o != Missing && faults >= old(faults) && (o == Failed ==> faults > old(faults))
      ensures id in root.stages && root.stages == old(root.stages)[id := old(root.stages[id]).(next := root.stages[id].next)]
      ensures o == Done ==> name in root.targets && root.targets[name] == old(root.stages[id].next.value) && root.stages[id].next == None
      ensures o == Failed ==> root == old(root)
    {
      ghost var before := root;
      o := MoveIn(id, name);
      if root != before && (n == name ==> before.stages[id].next.value in good) {
        MovedInKeeps(before, id, name, n, good);
      }
    }

    /** Removes the old revision, which may fail. */
    method DropOld(id: nat, ghost n: string, ghost good: set<Tree>) returns (crashed: bool)
      requires id in root.stages && Expendable(root, id, n)
      modifies this
      ensures Keeps(old(root), root, n, good) && root.targets == old(root.targets) && faults >= old(faults)
      ensures id in root.stages && root.stages == old(root.stages)[id := old(root.stages[id]).(backup := root.stages[id].backup)]
      ensures Expendable(root, id, n)
    {
      ghost var before := root;
      var removed := RemoveOld(id);
      RemainsAreHarmless(before, id, root.stages[id], n, good);
      crashed := removed == Crashed;
    }

    /** Moves the old revision back in; if that fails, the stage has to stay. */
    method GiveBack(id: nat, name: string, ghost n: string, ghost good: set<Tree>) returns (crashed: bool, preserveStaging: bool)
      requires id in root.stages && root.stages[id].name == Whole(name)
      modifies this
      ensures Keeps(old(root), root, n, good) && OthersStay(old(root), root, name) && faults >= old(faults)
      ensures id in root.stages && root.stages[id].name == Whole(name) && root.stages == old(root.stages)[id := root.stages[id]]
      ensures !crashed && !preserveStaging ==> root.stages[id].backup == None
    {
      ghost var before := root;
      var back := MoveBack(id, name);
      if root != before {
        MovedBackKeeps(before, id, name, n, good);
      }
      crashed, preserveStaging := back == Crashed, back != Done;
    }

    method WriteFiles(id: nat, files: seq<(string, string)>, ghost n: string, ghost good: set<Tree>) returns (o: Outcome)
      requires id in root.stages && root.stages[id].next == None && root.stages[id].backup == None
      modifies this
      ensures id in root.stages && root == WithStage(old(root), id, old(root.stages[id]).(next := root.stages[id].next))
      ensures Keeps(old(root), root, n, good)
      ensures o == Done && files != [] ==> root.stages[id].next == Some(TreeOf(files))
      ensures faults >= old(faults) && (o != Crashed && faults == old(faults) ==> o == Done)
    {
      o := Done;
      for i := 0 to |files|
        invariant id in root.stages && root == WithStage(old(root), id, old(root.stages[id]).(next := root.stages[id].next))
        invariant Keeps(old(root), root, n, good)
        invariant root.stages[id].next == if i == 0 then None else Some(TreeOf(files[..i]))
        invariant o == Done && faults >= old(faults)
      {
        assert files[..i + 1][..i] == files[..i];
        ghost var before := root;
        o := WriteNew(id, files[i].0, files[i].1);
        UnrelatedStage(before, id, root.stages[id], n, good);
        if o != Done {
          return;
        }
      }
      assert files[..|files|] == files;
    }

    // -------------------------------------------------------------------------------------------
    // recoverAbandonedStages
    // -------------------------------------------------------------------------------------------

    /** Renames the stage to take it over; which name it has does not matter here. */
    method Claim(id: nat) returns (o: Outcome)
      requires id in root.stages
      modifies this`faults
      ensures o != Missing && faults == old(faults) + if o == Failed then 1 else 0
    {
      o := Chance();
    }

    /** Reads a note; one that cannot be read or is no JSON yields nothing. */
    method ReadNote<T>(note: Note<T>) returns (value: Option<T>)
      modifies this`faults
      ensures faults >= old(faults)
      ensures value == (if note.Whole? then Some(note.value) else None) || (value == None && faults > old(faults))
    {
      var o := Chance();
      if o == Failed || note.Absent? || note.Torn? {
        return None;
      }
      return Some(note.value);
    }

    /**
     `recoverAbandonedStages`, for stages whose owners are gone, in the order of the directory listing. Failed stands
     for an exception.
     */
    method RecoverAbandonedStages(listing: seq<nat>, ghost n: string, ghost good: set<Tree>)
      returns (o: Outcome, recovered: map<string, string>)
      requires forall id :: id in root.stages <==> id in listing
      requires forall i, j :: 0 <= i < j < |listing| ==> listing[i] != listing[j]
      requires Complete(good) && SkillName(n)
      modifies this
      ensures Keeps(old(root), root, n, good)
      ensures faults >= old(faults) && (o == Failed ==> faults > old(faults)) && o != Missing
      ensures Preserved(old(root), root)
      ensures NewlyActive(recovered, old(root), root)
      ensures o == Done && faults == old(faults) && Recoverable(old(root), n, good) ==> n in root.targets && NoDamagedBackup(root, n, good)
      ensures o == Done && faults == old(faults) && n !in old(root.targets) ==>
        FirstBackup(listing, old(root.stages), n) == if n in root.targets then Some(root.targets[n]) else None
    {
      hide *;
      ProgressStart(root, listing, n, good);
      PreservedSelf(root);
      KeepsSelf(root, n, good);
      recovered := map[];
      o := Done;
      for i := 0 to |listing|
        invariant o == Done && Keeps(old(root), root, n, good) && faults >= old(faults) && Preserved(old(root), root)
        invariant NewlyActive(recovered, old(root), root)
        invariant Progress(old(root), root, listing, i, n, good, faults == old(faults))
      {
        ghost var before := root;
        ghost var faultsBefore := faults;
        StageIsThere(old(root), root, listing, i, n, good, faults == old(faults));
        var restored;
        o, restored := RecoverStage(listing[i], n, good);
        KeepsOn(old(root), before, root, n, good);
        PreservedStep(old(root), before, root, recovered, restored, listing[i], n, good, faults == faultsBefore && o != Crashed);
        if o == Crashed || o == Failed {
          return;
        }
        o := Done;
        if restored.Some? {
          recovered := recovered[restored.value.0 := restored.value.1];
        }
        ProgressStep(old(root), before, root, listing, i, n, good, faultsBefore == old(faults), faults == faultsBefore);
      }
      ProgressEnd(old(root), root, listing, n, good, faults == old(faults));
    }

    /** One turn of the loop; Missing means that the stage could not be taken over. */
    method RecoverStage(id: nat, ghost n: string, ghost good: set<Tree>) returns (o: Outcome, restored: Option<(string, string)>)
      requires id in root.stages && Complete(good) && SkillName(n)
      modifies this
      ensures Keeps(old(root), root, n, good) && faults >= old(faults) && (o == Failed ==> faults > old(faults))
      ensures Turn(old(root), root, id, n, good, faults == old(faults) && o != Crashed)
      ensures restored.Some? ==> NewlyActive(map[restored.value.0 := restored.value.1], old(root), root)
    {
      restored := None;
      o := Claim(id);
      if o != Done {
        SameTurn(root, id, n, good, false);
        return if o == Failed then Missing else o, None;
      }
      var hasBackup := root.stages[id].backup.Some?;
      var targetName := ReadNote(root.stages[id].name);
      if targetName == None || !SkillName(targetName.value) {
        SameTurn(root, id, n, good, faults == old(faults));
        if !hasBackup {
          o := RemoveExpendable(id, n, good);
        }
      } else if hasBackup {
        o, restored := RecoverBackup(id, targetName.value, n, good);
      } else {
        o := RemoveExpendable(id, n, good);
      }
    }

    /** The rest of the turn for a stage with a backup of `name`. */
    method RecoverBackup(id: nat, name: string, ghost n: string, ghost good: set<Tree>)
      returns (o: Outcome, restored: Option<(string, string)>)
      requires id in root.stages && root.stages[id].name == Whole(name) && root.stages[id].backup.Some?
      requires Complete(good)
      modifies this
      ensures Keeps(old(root), root, n, good) && faults >= old(faults) && (o == Failed ==> faults > old(faults))
      ensures Turn(old(root), root, id, n, good, faults == old(faults) && o != Crashed)
      ensures restored.Some? ==> NewlyActive(map[restored.value.0 := restored.value.1], old(root), root)
    {
      ActiveHasSkillFile(root, n, good);
      var preserveStage;
      o, preserveStage, restored := PutBack(id, name, n, good);
      ghost var put := root;
      hide Recoverable, Complete;
      PutBackTurn(old(root), put, id, name, n, faults == old(faults) && o == Done);
      if o != Done || preserveStage {
        return;
      }
      hide MayPutBack;
      o := RemoveExpendable(id, n, good);
      TwoTurns(old(root), put, root, id, n, good, faults == old(faults) && o != Crashed);
    }

    /** The part of the loop for a stage with a backup. */
    method PutBack(id: nat, name: string, ghost n: string, ghost good: set<Tree>)
      returns (o: Outcome, preserveStage: bool, restored: Option<(string, string)>)
      requires id in root.stages && root.stages[id].name == Whole(name) && root.stages[id].backup.Some?
      modifies this
      ensures Keeps(old(root), root, n, good) && faults >= old(faults) && (o == Failed ==> faults > old(faults)) && o != Missing
      ensures MayPutBack(old(root), root, id, name)
      ensures restored.Some? ==> restored.value.0 == name && root.targets != old(root.targets)
      ensures o == Done && name in old(root.targets) ==>
        root == old(root) && preserveStage == (root.stages[id].next.Some? || SKILL_FILE !in root.targets[name])
      ensures o == Done && name !in old(root.targets) ==> if preserveStage then faults > old(faults) else name in root.targets
    {
      hide Recoverable;
      o, preserveStage, restored := Done, false, None;
      if name !in root.targets {
        var revision := ReadNote(root.stages[id].revision);
        if revision.Some? && revision.value.Some? {
          var index := if root.index.Whole? then root.index.value else map[];
          ghost var before := root;
          o := WriteIndex(index[name := revision.value.value]);
          IndexIsApart(before, root.index, n, good);
          if o != Done {
            return;
          }
        }
        o := MoveBackSafely(id, name, n, good);
        if o == Crashed {
          return;
        }
        preserveStage := o != Done;
        if o == Done && revision.Some? && revision.value.Some? {
          restored := Some((name, revision.value.value));
        }
        o := Done;
      } else {
        var hasNew := root.stages[id].next.Some?;
        var hasActiveSkill := SKILL_FILE in root.targets[name];
        preserveStage := hasNew || !hasActiveSkill;
      }
    }

    method MoveBackSafely(id: nat, name: string, ghost n: string, ghost good: set<Tree>) returns (o: Outcome)
      requires id in root.stages && root.stages[id].name == Whole(name) && root.stages[id].backup.Some? && name !in root.targets
      modifies this
      ensures Keeps(old(root), root, n, good) && faults >= old(faults) && o != Missing && (o == Failed ==> faults > old(faults))
      ensures root == old(root) || root == MovedBack(old(root), id, name)
      ensures o == Done ==> root == MovedBack(old(root), id, name)
    {
      ghost var before := root;
      o := MoveBack(id, name);
      if root != before {
        MovedBackKeeps(before, id, name, n, good);
      }
    }

    /** Removal of a stage whose failure is ignored. */
    method RemoveExpendable(id: nat, ghost n: string, ghost good: set<Tree>) returns (o: Outcome)
      requires id in root.stages && Expendable(root, id, n)
      modifies this
      ensures Keeps(old(root), root, n, good) && root.targets == old(root.targets) && faults >= old(faults)
      ensures o == Done || o == Crashed
      ensures OnlyStage(old(root), root, id) && (o == Done && faults == old(faults) ==> id !in root.stages)
      ensures (n !in old(root.targets) ==> !BacksUp(old(root.stages[id]), n)) ==> Turn(old(root), root, id, n, good, faults == old(faults) && o != Crashed)
    {
      ghost var before := root;
      o := RemoveStage(id);
      if o == Done {
        RemovalIsHarmless(before, id, n, good);
      } else {
        RemainsAreHarmless(before, id, root.stages[id], n, good);
      }
      if o == Failed {
        o := Done;
      }
    }
  }

  /** No active skill was removed or changed. */
  ghost predicate Preserved(r: Root, r': Root) {
    forall m :: m in r.targets ==> m in r'.targets && r'.targets[m] == r.targets[m]
  }

  /** The recovered skills were not active before and are now. */
  ghost predicate NewlyActive(recovered: map<string, string>, r: Root, r': Root) {
    forall m :: m in recovered ==> m in r'.targets && m !in r.targets
  }

  lemma PreservedSelf(r: Root)
    ensures Preserved(r, r) && NewlyActive(map[], r, r)
  {
  }

  lemma PreservedStep(r0: Root, r: Root, r': Root, recovered: map<string, string>, restored: Option<(string, string)>,
                      id: nat, n: string, good: set<Tree>, clean: bool)
    requires Preserved(r0, r) && id in r.stages && Turn(r, r', id, n, good, clean) && NewlyActive(recovered, r0, r)
    requires restored.Some? ==> NewlyActive(map[restored.value.0 := restored.value.1], r, r')
    ensures Preserved(r0, r') && NewlyActive(recovered, r0, r')
    ensures restored.Some? ==> NewlyActive(recovered[restored.value.0 := restored.value.1], r0, r')
  {
    if restored.Some? {
      assert restored.value.0 in map[restored.value.0 := restored.value.1];
    }
  }

  lemma KeepsSelf(r: Root, n: string, good: set<Tree>)
    ensures Keeps(r, r, n, good)
  {
  }

  lemma OthersStayOn(r0: Root, r: Root, r': Root, name: string)
    requires OthersStay(r0, r, name) && (OthersStay(r, r', name) || r'.targets == r.targets)
    ensures OthersStay(r0, r', name)
  {
  }

  lemma KeepsOn(r0: Root, r: Root, r': Root, n: string, good: set<Tree>)
    requires Keeps(r0, r, n, good) && Keeps(r, r', n, good)
    ensures Keeps(r0, r', n, good)
  {
  }

  /** Only stage `id` was changed or removed. */
  ghost predicate OnlyStage(r: Root, r': Root, id: nat) {
    && (forall x :: x in r'.stages ==> x in r.stages && (x == id || r'.stages[x] == r.stages[x]))
    && (forall x :: x in r.stages && x != id ==> x in r'.stages)
  }

  /** Only the index changed, or the backup also became the active skill. */
  predicate MayPutBack(r: Root, r': Root, id: nat, name: string)
    requires id in r.stages && r.stages[id].backup.Some?
  {
    || r' == r.(index := r'.index)
    || (name !in r.targets && r' == MovedBack(r.(index := r'.index), id, name))
  }

  lemma IndexIsApart(r: Root, index: Note<map<string, string>>, n: string, good: set<Tree>)
    ensures Keeps(r, r.(index := index), n, good)
  {
    if Recoverable(r, n, good) && n !in r.targets {
      var b :| b in r.stages && BacksUp(r.stages[b], n);
      assert b in r.(index := index).stages && BacksUp(r.(index := index).stages[b], n);
    }
  }

  lemma ActiveHasSkillFile(r: Root, n: string, good: set<Tree>)
    requires Complete(good)
    ensures Recoverable(r, n, good) && n in r.targets ==> SKILL_FILE in r.targets[n]
  {
  }

  /** Recovery has no more to do for `n` at this stage, and what is left of a backup there was never taken apart. */
  predicate Settled(r: Root, id: nat, n: string) {
    id in r.stages && BacksUp(r.stages[id], n) ==> n in r.targets && r.stages[id].next.Some?
  }

  predicate Restored(r: Root, r': Root, id: nat, n: string)
    requires id in r.stages
  {
    n !in r.targets ==>
      if BacksUp(r.stages[id], n) then n in r'.targets && r'.targets[n] == r.stages[id].backup.value else n !in r'.targets
  }

  /** A turn of the loop spares everything else, and if it was clean it has dealt with its stage. */
  ghost predicate Turn(r: Root, r': Root, id: nat, n: string, good: set<Tree>, clean: bool)
    requires id in r.stages
  {
    && Preserved(r, r') && OnlyStage(r, r', id)
    && (clean ==> Restored(r, r', id, n) && (Recoverable(r, n, good) ==> Settled(r', id, n)))
  }

  lemma SameTurn(r: Root, id: nat, n: string, good: set<Tree>, clean: bool)
    requires id in r.stages && (clean ==> !BacksUp(r.stages[id], n))
    ensures Turn(r, r, id, n, good, clean)
  {
  }

  lemma PutBackTurn(r: Root, r': Root, id: nat, name: string, n: string, clean: bool)
    requires id in r.stages && r.stages[id].backup.Some? && r.stages[id].name == Whole(name) && MayPutBack(r, r', id, name)
    requires clean && name !in r.targets ==> name in r'.targets
    ensures Preserved(r, r') && OnlyStage(r, r', id) && (clean ==> Restored(r, r', id, n))
    ensures clean && (name == n && name in r.targets ==> r.stages[id].next.Some?) ==> Settled(r', id, n)
  {
  }

  /** A removal after a turn that left the stage expendable. */
  lemma TwoTurns(r: Root, mid: Root, r': Root, id: nat, n: string, good: set<Tree>, clean: bool)
    requires id in r.stages && Preserved(r, mid) && OnlyStage(r, mid, id) && OnlyStage(mid, r', id) && r'.targets == mid.targets
    requires clean ==> id !in r'.stages && Restored(r, mid, id, n)
    ensures Turn(r, r', id, n, good, clean)
  {
  }

  /** The backup of `n` in the first stage of the listing that has one. */
  function FirstBackup(listing: seq<nat>, stages: map<nat, Stage>, n: string): Option<Tree> {
    if listing == [] then None
    else
      var last := listing[|listing| - 1];
      var earlier := FirstBackup(listing[..|listing| - 1], stages, n);
      if earlier.Some? then earlier
      else if last in stages && BacksUp(stages[last], n) then stages[last].backup
      else None
  }

  /** Where recovery stands after `i` stages. */
  ghost predicate Progress(r0: Root, r: Root, listing: seq<nat>, i: nat, n: string, good: set<Tree>, faultless: bool)
    requires i <= |listing|
  {
    && (forall j :: i <= j < |listing| ==> listing[j] in r.stages && listing[j] in r0.stages && r.stages[listing[j]] == r0.stages[listing[j]])
    && (forall id :: id in r.stages ==> id in listing)
    && (faultless && Recoverable(r0, n, good) ==> forall j :: 0 <= j < i ==> Settled(r, listing[j], n))
    && (faultless && n !in r0.targets ==>
          FirstBackup(listing[..i], r0.stages, n) == if n in r.targets then Some(r.targets[n]) else None)
  }

  lemma ProgressStart(r: Root, listing: seq<nat>, n: string, good: set<Tree>)
    requires forall id :: id in r.stages <==> id in listing
    ensures Progress(r, r, listing, 0, n, good, true)
  {
  }

  lemma ProgressEnd(r0: Root, r: Root, listing: seq<nat>, n: string, good: set<Tree>, faultless: bool)
    requires Progress(r0, r, listing, |listing|, n, good, faultless) && Keeps(r0, r, n, good)
    ensures faultless && Recoverable(r0, n, good) ==> n in r.targets && NoDamagedBackup(r, n, good)
    ensures faultless && n !in r0.targets ==>
      FirstBackup(listing, r0.stages, n) == if n in r.targets then Some(r.targets[n]) else None
  {
    assert listing[..|listing|] == listing;
    assert forall id :: id in r.stages ==> id in listing;
  }

  lemma StageIsThere(r0: Root, r: Root, listing: seq<nat>, i: nat, n: string, good: set<Tree>, faultless: bool)
    requires i < |listing| && Progress(r0, r, listing, i, n, good, faultless)
    ensures listing[i] in r.stages
  {
  }

  lemma ProgressStep(r0: Root, r: Root, r': Root, listing: seq<nat>, i: nat, n: string, good: set<Tree>,
                     faultless: bool, turnFaultless: bool)
    requires i < |listing| && forall j, k :: 0 <= j < k < |listing| ==> listing[j] != listing[k]
    requires Progress(r0, r, listing, i, n, good, faultless) && Keeps(r0, r, n, good)
    requires listing[i] in r.stages && Turn(r, r', listing[i], n, good, turnFaultless)
    ensures Progress(r0, r', listing, i + 1, n, good, faultless && turnFaultless)
  {
    assert listing[..i + 1][..i] == listing[..i];
  }

  predicate CanMoveIn(r: Root, id: nat, name: string) {
    id in r.stages && r.stages[id].next.Some? && name !in r.targets
  }

  predicate CanMoveBack(r: Root, id: nat, name: string) {
    id in r.stages && r.stages[id].backup.Some? && name !in r.targets
  }

  /** A number that is not in use. */
  function Fresh(used: set<nat>): (id: nat)
    ensures id !in used
    decreases |used|
  {
    if used == {} then 0
    else
      MaxExists(used);
      var top :| top in used && forall x :: x in used ==> x <= top;
      top + 1
  }

  lemma {:induction false} MaxExists(used: set<nat>)
    requires used != {}
    ensures exists top :: top in used && forall x :: x in used ==> x <= top
    decreases |used|
  {
    var x :| x in used;
    if used != {x} {
      MaxExists(used - {x});
      var top :| top in used - {x} && forall y :: y in used - {x} ==> y <= top;
      var most := if x < top then top else x;
      assert forall y :: y in used ==> y in used - {x} || y == x;
      assert most in used && forall y :: y in used ==> y <= most;
    }
  }

  // ---------------------------------------------------------------------------------------------
  // Any number of lives
  // ---------------------------------------------------------------------------------------------

  datatype Install = Install(name: string, files: seq<(string, string)>, previousRevision: Option<string>)

  function Enumerate(ids: set<nat>): (listing: seq<nat>)
    ensures forall id :: id in ids <==> id in listing
    ensures forall i, j :: 0 <= i < j < |listing| ==> listing[i] != listing[j]
    decreases |ids|
  {
    if ids == {} then []
    else
      MaxExists(ids);
      var top :| top in ids && forall x :: x in ids ==> x <= top;
      var rest := Enumerate(ids - {top});
      assert top !in rest;
      rest + [top]
  }

  /** The stages in whatever order the file system lists them. */
  method List(disk: Disk) returns (listing: seq<nat>)
    ensures forall id :: id in disk.root.stages <==> id in listing
    ensures forall i, j :: 0 <= i < j < |listing| ==> listing[i] != listing[j]
  {
    var rest := disk.root.stages.Keys;
    listing := [];
    while rest != {}
      invariant forall id :: id in disk.root.stages <==> id in rest || id in listing
      invariant forall id :: id in listing ==> id !in rest
      invariant forall i, j :: 0 <= i < j < |listing| ==> listing[i] != listing[j]
      decreases |rest|
    {
      var id :| id in rest;
      rest := rest - {id};
      listing := listing + [id];
    }
  }

  predicate DistinctNames(installs: seq<Install>) {
    forall i, j :: 0 <= i < j < |installs| ==> installs[i].name != installs[j].name
  }

  /** Of the first `k` installs every one that is a skill is active, the last one of a name. */
  ghost predicate Installed(installs: seq<Install>, k: nat, r: Root)
    requires k <= |installs|
  {
    forall i :: 0 <= i < k && Installable(installs[i].name, installs[i].files) && !Replaced(installs, i, k) ==>
      installs[i].name in r.targets && r.targets[installs[i].name] == TreeOf(installs[i].files)
  }

  ghost predicate Replaced(installs: seq<Install>, i: nat, k: nat)
    requires i < k <= |installs|
  {
    exists j :: i < j < k && installs[j].name == installs[i].name && Installable(installs[j].name, installs[j].files)
  }

  lemma EarlierStays(installs: seq<Install>, i: nat, k: nat, r: Root, r': Root)
    requires i <= k < |installs| && Installed(installs, k, r) && OthersStay(r, r', installs[k].name)
    requires Installable(installs[i].name, installs[i].files) && !Replaced(installs, i, k + 1)
    requires Installable(installs[k].name, installs[k].files) ==>
      installs[k].name in r'.targets && r'.targets[installs[k].name] == TreeOf(installs[k].files)
    requires !Installable(installs[k].name, installs[k].files) ==> r' == r
    ensures installs[i].name in r'.targets && r'.targets[installs[i].name] == TreeOf(installs[i].files)
  {
    hide Installable, TreeOf;
    if i < k {
      NotReplacedBefore(installs, i, k);
    }
  }

  lemma NotReplacedBefore(installs: seq<Install>, i: nat, k: nat)
    requires i < k < |installs| && !Replaced(installs, i, k + 1)
    ensures !Replaced(installs, i, k)
    ensures !(installs[k].name == installs[i].name && Installable(installs[k].name, installs[k].files))
  {
    hide Installable;
  }

  lemma InstalledNext(installs: seq<Install>, k: nat, r: Root, r': Root, faultless: bool)
    requires k < |installs| && (faultless ==> Installed(installs, k, r)) && OthersStay(r, r', installs[k].name)
    requires faultless && Installable(installs[k].name, installs[k].files) ==>
      installs[k].name in r'.targets && r'.targets[installs[k].name] == TreeOf(installs[k].files)
    requires !Installable(installs[k].name, installs[k].files) ==> r' == r
    ensures faultless ==> Installed(installs, k + 1, r')
  {
    if faultless {
      hide Installable, TreeOf, OthersStay;
      forall i | 0 <= i < k + 1 && Installable(installs[i].name, installs[i].files) && !Replaced(installs, i, k + 1)
        ensures installs[i].name in r'.targets && r'.targets[installs[i].name] == TreeOf(installs[i].files)
      {
        EarlierStays(installs, i, k, r, r');
      }
    }
  }

  ghost predicate AllGood(installs: seq<Install>, n: string, good: set<Tree>) {
    forall i :: 0 <= i < |installs| && installs[i].name == n ==> TreeOf(installs[i].files) in good
  }

  /**
   One life of the program: a recovery, and unless it throws any installs, whether or not the recovery passed over errors
   and whether or not an install throws. It may end in a crash anywhere. `met` tells whether an install of `n` began while
   a damaged backup of it was about: that can happen only if the recovery passed over an error or `n` is installed twice,
   and otherwise a complete revision is never out of reach. If the disk never fails and nothing is cut short, everything
   that is a skill ends up active.
   */
  method Live(disk: Disk, installs: seq<Install>, ghost n: string, ghost good: set<Tree>) returns (o: Outcome, ghost met: bool)
    requires Complete(good) && SkillName(n) && AllGood(installs, n, good)
    modifies disk
    ensures !met ==> Keeps(old(disk.root), disk.root, n, good)
    ensures met && Recoverable(old(disk.root), n, good) ==> disk.faults > old(disk.faults) || !DistinctNames(installs)
    ensures disk.faults >= old(disk.faults)
    ensures o != Crashed && disk.faults == old(disk.faults) ==> Installed(installs, |installs|, disk.root)
  {
    met := false;
    var listing := List(disk);
    var recovered;
    o, recovered := disk.RecoverAbandonedStages(listing, n, good);
    if o != Done {
      return;
    }
    ghost var clean := disk.faults == old(disk.faults) && Recoverable(old(disk.root), n, good);
    hide Recoverable, NoDamagedBackup;
    for i := 0 to |installs|
      invariant !met ==> Keeps(old(disk.root), disk.root, n, good)
      invariant met ==> !clean || !DistinctNames(installs)
      invariant clean && (forall j :: 0 <= j < i ==> installs[j].name != n) ==> NoDamagedBackup(disk.root, n, good)
      invariant !clean && Recoverable(old(disk.root), n, good) ==> disk.faults > old(disk.faults)
      invariant disk.faults >= old(disk.faults)
      invariant o != Crashed && (disk.faults == old(disk.faults) ==> Installed(installs, i, disk.root))
    {
      ghost var before := disk.root;
      var next := installs[i];
      if next.name == n && !NoDamagedBackup(disk.root, n, good) {
        met := true;
      }
      o := disk.UnpackSkill(next.name, next.files, next.previousRevision, n, good);
      if o == Crashed {
        return;
      }
      InstalledNext(installs, i, before, disk.root, disk.faults == old(disk.faults));
    }
  }

  /**
   Main result: if a complete revision of `n` is active, then after any number of lives, each cut short anywhere or
   not, one recovery that is neither cut short nor runs into an error leaves a complete revision active, and nothing
   in its way the next time; given only that no install of `n` on the way began while a damaged backup of it was about.
   */
  method LiveAgain(disk: Disk, lives: seq<seq<Install>>, ghost n: string, ghost good: set<Tree>) returns (o: Outcome, ghost met: bool)
    requires n in disk.root.targets && disk.root.targets[n] in good && Complete(good) && SkillName(n)
    requires NoDamagedBackup(disk.root, n, good)
    requires forall l :: 0 <= l < |lives| ==> AllGood(lives[l], n, good)
    modifies disk
    ensures o == Done && !met ==> n in disk.root.targets && disk.root.targets[n] in good && NoDamagedBackup(disk.root, n, good)
    ensures met ==> disk.faults > old(disk.faults) || exists l :: 0 <= l < |lives| && !DistinctNames(lives[l])
  {
    met := false;
    for l := 0 to |lives|
      invariant (!met ==> Recoverable(disk.root, n, good)) && disk.faults >= old(disk.faults)
      invariant met ==> disk.faults > old(disk.faults) || exists k :: 0 <= k < l && !DistinctNames(lives[k])
    {
      hide Recoverable, NoDamagedBackup;
      ghost var meets;
      var ended;
      ended, meets := Live(disk, lives[l], n, good);
      met := met || meets;
    }
    var listing := List(disk);
    var faultsBefore := disk.faults;
    var recovered;
    o, recovered := disk.RecoverAbandonedStages(listing, n, good);
    if disk.faults != faultsBefore {
      return Failed, met;
    }
  }

  // ---------------------------------------------------------------------------------------------
  // When exactly an install is safe
  // ---------------------------------------------------------------------------------------------

  ghost predicate Lists(listing: seq<nat>, r: Root) {
    && (forall id :: id in r.stages <==> id in listing)
    && (forall i, j :: 0 <= i < j < |listing| ==> listing[i] != listing[j])
  }

  /** In whatever order the stages are listed, recovery puts back a complete revision of `n`. */
  ghost predicate AlwaysRestoresComplete(r: Root, n: string, good: set<Tree>) {
    forall listing :: Lists(listing, r) ==>
      FirstBackup(listing, r.stages, n).Some? && FirstBackup(listing, r.stages, n).value in good
  }

  lemma {:induction false} FirstBackupIsABackup(listing: seq<nat>, stages: map<nat, Stage>, n: string)
    ensures FirstBackup(listing, stages, n).Some? <==> exists id :: id in listing && id in stages && BacksUp(stages[id], n)
    ensures FirstBackup(listing, stages, n).Some? ==>
      exists id :: id in listing && id in stages && BacksUp(stages[id], n) && FirstBackup(listing, stages, n) == stages[id].backup
    decreases |listing|
  {
    if listing != [] {
      FirstBackupIsABackup(listing[..|listing| - 1], stages, n);
      assert listing == listing[..|listing| - 1] + [listing[|listing| - 1]];
    }
  }

  lemma {:induction false} HeadComesFirst(id: nat, rest: seq<nat>, stages: map<nat, Stage>, n: string)
    requires id in stages && BacksUp(stages[id], n)
    ensures FirstBackup([id] + rest, stages, n) == stages[id].backup
    decreases |rest|
  {
    if rest == [] {
      assert [id] + rest == [id] && [id][..0] == [];
    } else {
      assert ([id] + rest)[..|rest|] == [id] + rest[..|rest| - 1];
      HeadComesFirst(id, rest[..|rest| - 1], stages, n);
    }
  }

  /**
   The moment between the two renames is the dangerous one. A crash there is always recovered from exactly if, when
   the install began, no stage left behind held a damaged backup of the skill.
   */
  lemma InstallIsSafeExactlyWithoutDamagedBackups(r: Root, id: nat, n: string, good: set<Tree>)
    requires n in r.targets && r.targets[n] in good
    requires id in r.stages && r.stages[id].name == Whole(n) && r.stages[id].backup == None
    ensures AlwaysRestoresComplete(MovedAside(r, id, n), n, good) <==> NoDamagedBackup(r, n, good)
  {
    var r' := MovedAside(r, id, n);
    if AlwaysRestoresComplete(r', n, good) {
      forall x | x in r.stages && BacksUp(r.stages[x], n)
        ensures r.stages[x].backup.value in good
      {
        var listing := [x] + Enumerate(r'.stages.Keys - {x});
        assert Lists(listing, r');
        HeadComesFirst(x, Enumerate(r'.stages.Keys - {x}), r'.stages, n);
      }
    }
    if NoDamagedBackup(r, n, good) {
      forall listing | Lists(listing, r')
        ensures FirstBackup(listing, r'.stages, n).Some? && FirstBackup(listing, r'.stages, n).value in good
      {
        FirstBackupIsABackup(listing, r'.stages, n);
        assert id in listing && BacksUp(r'.stages[id], n);
      }
    }
  }

  /** A revision of `s`, and what a removal that failed half-way leaves of it. */
  const WHOLE: Tree := map[SKILL_FILE := "a", "run.sh" := "b"]
  const DAMAGED: Tree := map["run.sh" := "b"]

  const STAGED := Stage(Whole("s"), Whole(None), Some(WHOLE), None)

  /** An install of `s` whose clearing up failed half-way, both at the backup and at the stage. */
  const LEFT_BEHIND := Root(map["s" := WHOLE], map[0 := Stage(Whole("s"), Whole(None), None, Some(DAMAGED))], Absent)

  /** The state is what the renames of an install make of `STAGED`, followed by removals that fail. */
  lemma HowItIsLeftBehind()
    ensures var r := Root(map["s" := WHOLE], map[0 := STAGED], Absent);
      && CanMoveIn(MovedAside(r, 0, "s"), 0, "s")
      && LEFT_BEHIND == WithStage(MovedIn(MovedAside(r, 0, "s"), 0, "s"), 0, LEFT_BEHIND.stages[0])
      && MovedIn(MovedAside(r, 0, "s"), 0, "s").stages[0] == LEFT_BEHIND.stages[0].(backup := Some(WHOLE))
    ensures SmallerTree(LEFT_BEHIND.stages[0].backup, Some(WHOLE)) && Remains(LEFT_BEHIND.stages[0], LEFT_BEHIND.stages[0])
    ensures Recoverable(LEFT_BEHIND, "s", {WHOLE}) && !NoDamagedBackup(LEFT_BEHIND, "s", {WHOLE})
  {
    var r := Root(map["s" := WHOLE], map[0 := STAGED], Absent);
    var aside := MovedAside(r, 0, "s");
    assert aside == Root(map[], map[0 := STAGED.(backup := Some(WHOLE))], Absent);
    var moved := MovedIn(aside, 0, "s");
    assert moved == Root(map["s" := WHOLE], map[0 := Stage(Whole("s"), Whole(None), None, Some(WHOLE))], Absent);
    assert LEFT_BEHIND == WithStage(moved, 0, LEFT_BEHIND.stages[0]);
    assert BacksUp(LEFT_BEHIND.stages[0], "s") && SKILL_FILE !in DAMAGED;
  }

  /** The next install of `s`, cut short between its two renames. */
  const CUT_SHORT := MovedAside(WithStage(LEFT_BEHIND, 1, STAGED), 1, "s")

  lemma DamagedComesFirst()
    ensures "s" !in CUT_SHORT.targets && CUT_SHORT.stages[1].backup == Some(WHOLE)
    ensures forall id :: id in CUT_SHORT.stages <==> id in [0, 1]
    ensures FirstBackup([0, 1], CUT_SHORT.stages, "s") == Some(DAMAGED)
    ensures Complete({WHOLE}) && SkillName("s")
  {
    assert CUT_SHORT.stages == map[0 := LEFT_BEHIND.stages[0], 1 := STAGED.(backup := Some(WHOLE))];
    assert BacksUp(CUT_SHORT.stages[0], "s");
    HeadComesFirst(0, [1], CUT_SHORT.stages, "s");
    assert [0] + [1] == [0, 1];
  }

  /**
   The damaged backup comes back: a recovery that is not cut short and meets no error makes the damaged tree the active
   skill, although a whole one is staged and another is backed up.
   */
  method DamagedBackupComesBack() returns (o: Outcome, disk: Disk)
    ensures o == Done && disk.faults == 0 ==> "s" in disk.root.targets && disk.root.targets["s"] == DAMAGED
  {
    hide *;
    DamagedComesFirst();
    disk := new Disk(CUT_SHORT);
    var recovered;
    o, recovered := disk.RecoverAbandonedStages([0, 1], "s", {WHOLE});
  }
}
