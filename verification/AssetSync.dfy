/** Planning and carrying out the wake-word asset sync (controller/em_oww_assets.py, with the loop in
    controller/em_api.py that applies a plan to a device). */
module AssetSync {
  import opened Commands
  import opened Options
  import opened Recency
  import opened Sets

  datatype Kind = Runtime | Shared | Classifier

  datatype Asset = Asset(name: string, md5: string, size: nat, kind: Kind, selected: bool)

  datatype FileInfo = FileInfo(md5: string, mtime: nat)

  type Files = map<string, FileInfo>

  /** A device listing: a dict, so also an order of its names. */
  datatype Inventory = Inventory(order: seq<string>, files: Files)

  datatype Plan = Plan(push: seq<Asset>, prune: seq<string>, keep: seq<string>, blocked: bool)

  predicate IsNoop(p: Plan) {
    p.push == [] && p.prune == [] && !p.blocked
  }

  function Elements(s: seq<string>): set<string> {
    set n | n in s
  }

  ghost predicate ValidInventory(inv: Inventory) {
    Distinct(inv.order) && forall n :: n in inv.order <==> n in inv.files
  }

  /** What arrived of a device's listing: whole lines, perhaps not all of them. */
  ghost predicate Lists(listed: Inventory, files: Files) {
    ValidInventory(listed) && forall n :: n in listed.files ==> n in files && files[n] == listed.files[n]
  }

  // ---- The parts of a plan

  predicate Has(files: Files, a: Asset) {
    a.name in files && files[a.name].md5 == a.md5
  }

  /** The desired assets a device lacks, or holds with other contents. */
  function Missing(desired: seq<Asset>, files: Files): (r: seq<Asset>)
    ensures forall a :: a in r <==> a in desired && !Has(files, a)
  {
    if |desired| == 0 then []
    else
      var init, last := desired[..|desired| - 1], desired[|desired| - 1];
      assert desired == init + [last];
      if Has(files, last) then Missing(init, files) else Missing(init, files) + [last]
  }

  ghost predicate HeldName(desired: seq<Asset>, files: Files, n: string) {
    exists a :: a in desired && Has(files, a) && a.name == n
  }

  /** The desired assets a device holds already. */
  function Held(desired: seq<Asset>, files: Files): (r: seq<string>)
    ensures forall n :: n in r <==> HeldName(desired, files, n)
  {
    if |desired| == 0 then []
    else
      var init, last := desired[..|desired| - 1], desired[|desired| - 1];
      assert desired == init + [last];
      if Has(files, last) then Held(init, files) + [last.name] else Held(init, files)
  }

  predicate IsModel(name: string) {
    |name| >= 5 && name[|name| - 5..] == ".onnx"
  }

  predicate Wanted(desired: seq<Asset>, name: string) {
    exists i :: 0 <= i < |desired| && desired[i].name == name
  }

  /** Never to be deleted: what is desired, and what every device needs. */
  predicate Required(desired: seq<Asset>, name: string) {
    || Wanted(desired, name)
    || name == "melspectrogram.onnx" || name == "embedding_model.onnx" || name == "libonnxruntime.so"
  }

  predicate IsExtra(desired: seq<Asset>, name: string) {
    IsModel(name) && !Required(desired, name)
  }

  function Extras(desired: seq<Asset>, order: seq<string>): (r: seq<string>)
    ensures forall n :: n in r <==> n in order && IsExtra(desired, n)
  {
    if |order| == 0 then []
    else
      assert order == [order[0]] + order[1..];
      if IsExtra(desired, order[0]) then [order[0]] + Extras(desired, order[1..]) else Extras(desired, order[1..])
  }

  function Age(files: Files, name: string): nat {
    if name in files then files[name].mtime else 0
  }

  function Ages(files: Files): string -> nat {
    n => Age(files, n)
  }

  function SelectedCount(desired: seq<Asset>): nat {
    if |desired| == 0 then 0
    else SelectedCount(desired[..|desired| - 1])
         + (if desired[|desired| - 1].kind == Classifier && desired[|desired| - 1].selected then 1 else 0)
  }

  function LeftoverSlots(desired: seq<Asset>, slots: int): nat {
    if slots - SelectedCount(desired) > 0 then slots - SelectedCount(desired) else 0
  }

  function Bytes(push: seq<Asset>): nat {
    if |push| == 0 then 0 else Bytes(push[..|push| - 1]) + push[|push| - 1].size
  }

  /** Installing would leave less than the 50 MB floor. A device lacking nothing is never blocked. */
  predicate Blocked(push: seq<Asset>, freeMb: Option<int>) {
    push != [] && freeMb.Some? && freeMb.value as real - Bytes(push) as real / 1048576.0 < 50.0
  }

  function PlanOf(desired: seq<Asset>, actual: Inventory, freeMb: Option<int>, slots: int): Plan {
    var push := Missing(desired, actual.files);
    if Blocked(push, freeMb) then Plan([], [], [], true)
    else
      var extras := Newest(Extras(desired, actual.order), Ages(actual.files));
      var kept := if LeftoverSlots(desired, slots) < |extras| then LeftoverSlots(desired, slots) else |extras|;
      Plan(push, extras[kept..], Held(desired, actual.files) + extras[..kept], false)
  }

  /** What is held and what is missing, with its size, and how many selected classifiers there are. */
  method Compare(desired: seq<Asset>, files: Files)
    returns (push: seq<Asset>, keep: seq<string>, pushBytes: nat, selected: nat)
    ensures push == Missing(desired, files) && keep == Held(desired, files)
    ensures pushBytes == Bytes(push) && selected == SelectedCount(desired)
  {
    push, keep, pushBytes, selected := [], [], 0, 0;
    for i := 0 to |desired|
      invariant push == Missing(desired[..i], files) && keep == Held(desired[..i], files)
      invariant pushBytes == Bytes(push) && selected == SelectedCount(desired[..i])
    {
      var a := desired[i];
      assert desired[..i + 1][..i] == desired[..i];
      if Has(files, a) {
        keep := keep + [a.name];
      } else {
        pushBytes := pushBytes + a.size;
        assert (push + [a])[..|push|] == push;
        push := push + [a];
      }
      if a.kind == Classifier && a.selected {
        selected := selected + 1;
      }
    }
    assert desired[..|desired|] == desired;
  }

  method PlanSync(desired: seq<Asset>, actual: Inventory, freeMb: Option<int>, slots: int) returns (p: Plan)
    ensures p == PlanOf(desired, actual, freeMb, slots)
  {
    var push, keep, pushBytes, selected := Compare(desired, actual.files);
    if freeMb.Some? && push != [] {
      var needMb := pushBytes as real / 1048576.0;
      if freeMb.value as real - needMb < 50.0 {
        return Plan([], [], [], true);
      }
    }
    var extras := Newest(Extras(desired, actual.order), Ages(actual.files));
    var leftover := if slots - selected > 0 then slots - selected else 0;
    var kept := if leftover < |extras| then leftover else |extras|;
    p := Plan(push, extras[kept..], keep + extras[..kept], false);
  }

  // ---- The order of eviction

  lemma {:induction false} ExtrasDistinct(desired: seq<Asset>, order: seq<string>)
    requires Distinct(order)
    ensures Distinct(Extras(desired, order))
  {
    if |order| > 0 {
      ExtrasDistinct(desired, order[1..]);
    }
  }

  // ---- What a plan may delete

  /** Deletions are of undesired models only, never a shared model or the runtime; every one is no newer than
      every leftover spared; and the leftovers spared number at most slots - selected,
      exactly when any goes. What is kept is what is held of the desired, and the leftovers. */
  lemma PruneIsSafe(desired: seq<Asset>, actual: Inventory, freeMb: Option<int>, slots: int)
    requires ValidInventory(actual)
    ensures var p := PlanOf(desired, actual, freeMb, slots);
            var spared := Spared(desired, actual, p);
            && (forall n :: n in p.prune ==> n in actual.files && IsExtra(desired, n))
            && (forall n, k :: n in p.prune && k in spared ==> Age(actual.files, k) >= Age(actual.files, n))
            && (!p.blocked ==> |spared| <= LeftoverSlots(desired, slots))
            && (p.prune != [] ==> |spared| == LeftoverSlots(desired, slots))
            && (!p.blocked ==> forall n :: n in p.keep <==> HeldName(desired, actual.files, n) || n in spared)
  {
    var p := PlanOf(desired, actual, freeMb, slots);
    if !p.blocked {
      var extras := EvictionOrder(desired, actual);
      var kept := |extras| - |p.prune|;
      SparedAreKept(desired, actual, p, extras, kept);
      DistinctSize(extras[..kept]);
      assert forall n :: n in extras[..kept] <==> n in Elements(extras[..kept]);
    }
  }

  lemma EvictionOrder(desired: seq<Asset>, actual: Inventory) returns (extras: seq<string>)
    requires ValidInventory(actual)
    ensures extras == Newest(Extras(desired, actual.order), Ages(actual.files))
    ensures SortedByAge(extras, Ages(actual.files)) && Distinct(extras)
    ensures forall n :: n in extras <==> n in Extras(desired, actual.order)
  {
    var found := Extras(desired, actual.order);
    extras := Newest(found, Ages(actual.files));
    NewestSorts(found, Ages(actual.files));
    ExtrasDistinct(desired, actual.order);
    SameElements(extras, found);
  }

  /** The undesired models a plan leaves on the device. */
  ghost function Spared(desired: seq<Asset>, actual: Inventory, p: Plan): set<string> {
    set n | n in actual.files && IsExtra(desired, n) && n !in p.prune
  }

  lemma SparedAreKept(desired: seq<Asset>, actual: Inventory, p: Plan, extras: seq<string>, kept: nat)
    requires ValidInventory(actual) && Distinct(extras) && kept <= |extras| && p.prune == extras[kept..]
    requires forall n :: n in extras <==> n in Extras(desired, actual.order)
    ensures Spared(desired, actual, p) == Elements(extras[..kept])
  {
    forall n ensures n in Spared(desired, actual, p) <==> n in Elements(extras[..kept]) {
      KeptOrNot(extras, kept, n);
    }
  }

  lemma KeptOrNot(extras: seq<string>, kept: nat, n: string)
    requires Distinct(extras) && kept <= |extras|
    ensures n in extras[..kept] <==> n in extras && n !in extras[kept..]
  {
    assert extras == extras[..kept] + extras[kept..];
    assert forall i :: 0 <= i < |extras[kept..]| ==> extras[kept..][i] == extras[kept + i];
    assert forall i :: 0 <= i < kept ==> extras[..kept][i] == extras[i];
  }

  lemma {:induction false} DistinctSize(s: seq<string>)
    requires Distinct(s)
    ensures |Elements(s)| == |s|
  {
    if |s| > 0 {
      DistinctSize(s[1..]);
      var rest := Elements(s[1..]);
      assert s == [s[0]] + s[1..];
      assert Elements(s) == {s[0]} + rest;
    }
  }

  // ---- Carrying a plan out

  /** The device's files after verified pushes, the k-th at time now(k). */
  function Stored(files: Files, push: seq<Asset>, now: nat -> nat): Files {
    if |push| == 0 then files
    else
      var last := push[|push| - 1];
      Stored(files, push[..|push| - 1], now)[last.name := FileInfo(last.md5, now(|push| - 1))]
  }

  /** What of the clean-up at the end of a sync ran on the device; its failures go unreported. */
  datatype Cleanup = Cleanup(removes: string -> bool, touches: bool, time: nat)

  function Removed(files: Files, prune: seq<string>, c: Cleanup): Files {
    files - set n | n in prune && c.removes(n)
  }

  function FirstClassifier(desired: seq<Asset>): Option<Asset> {
    if |desired| == 0 then None
    else if desired[0].kind == Classifier then Some(desired[0])
    else FirstClassifier(desired[1..])
  }

  /** `touch`: a new time, and an empty file where there was none. */
  function Touched(files: Files, sel: Option<Asset>, t: nat): Files {
    if sel.None? then files
    else if sel.value.name in files then files[sel.value.name := files[sel.value.name].(mtime := t)]
    else files[sel.value.name := FileInfo("d41d8cd98f00b204e9800998ecf8427e", t)]
  }

  function Synced(files: Files, desired: seq<Asset>, p: Plan, now: nat -> nat, c: Cleanup): Files {
    if IsNoop(p) then files
    else
      var kept := Removed(Stored(files, p.push, now), p.prune, c);
      if c.touches then Touched(kept, FirstClassifier(desired), c.time) else kept
  }

  /** The pushes that took effect when `confirmed` of them were: a last one may have replaced its file unheard. */
  function Landed(push: seq<Asset>, reach: nat -> Reach, confirmed: nat): seq<Asset>
    requires confirmed <= |push|
  {
    if confirmed < |push| && reach(confirmed) == RunUnheard then push[..confirmed + 1] else push[..confirmed]
  }

  class Device {
    var files: Files

    constructor (files: Files)
      ensures this.files == files
    {
      this.files := files;
    }

    /** Push in order, each verified on the device, up to the first that is not confirmed. */
    method PushAll(push: seq<Asset>, reach: nat -> Reach, now: nat -> nat) returns (arrived: bool, pushed: nat)
      modifies this
      ensures pushed <= |push|
      ensures if arrived then pushed == |push| && files == Stored(old(files), push, now)
              else pushed < |push| && reach(pushed) != RunHeard
                   && files == Stored(old(files), Landed(push, reach, pushed), now)
    {
      pushed := 0;
      while pushed < |push|
        invariant pushed <= |push| && files == Stored(old(files), push[..pushed], now)
      {
        var asset := push[pushed];
        assert push[..pushed + 1][..pushed] == push[..pushed];
        if reach(pushed) != NotRun {
          files := files[asset.name := FileInfo(asset.md5, now(pushed))];
        }
        if reach(pushed) != RunHeard {
          return false, pushed;
        }
        pushed := pushed + 1;
      }
      assert push[..pushed] == push;
      arrived := true;
    }

    /** One sync, planned on whatever lines of the listing arrived. Nothing is deleted unless every push was confirmed;
        success says nothing about the clean-up, and a failed push may have replaced its file. */
    method Sync(desired: seq<Asset>, listed: Inventory, freeMb: Option<int>, reach: nat -> Reach, now: nat -> nat,
                c: Cleanup)
      returns (ok: bool, pushed: nat)
      requires Lists(listed, files)
      modifies this
      ensures var p := PlanOf(desired, listed, freeMb, 4);
              && pushed <= |p.push|
              && (ok ==> desired != [] && !p.blocked && pushed == |p.push|
                         && files == Synced(old(files), desired, p, now, c))
              && (!ok ==> files == if desired == [] || p.blocked then old(files)
                                   else Stored(old(files), Landed(p.push, reach, pushed), now))
              && (!ok && desired != [] && !p.blocked ==> pushed < |p.push| && reach(pushed) != RunHeard)
    {
      ok, pushed := false, 0;
      if desired == [] {
        return;
      }
      var plan := PlanSync(desired, listed, freeMb, 4);
      if plan.blocked {
        return;
      }
      if IsNoop(plan) {
        return true, 0;
      }
      var arrived;
      arrived, pushed := PushAll(plan.push, reach, now);
      if !arrived {
        return;
      }
      CleanUp(desired, plan.prune, c);
      ok := true;
    }

    method CleanUp(desired: seq<Asset>, prune: seq<string>, c: Cleanup)
      modifies this
      ensures var kept := Removed(old(files), prune, c);
              files == if c.touches then Touched(kept, FirstClassifier(desired), c.time) else kept
    {
      for i := 0 to |prune|
        invariant files == Removed(old(files), prune[..i], c)
      {
        assert prune[..i + 1] == prune[..i] + [prune[i]];
        if c.removes(prune[i]) {
          files := files - {prune[i]};
        }
      }
      assert prune[..|prune|] == prune;
      if c.touches {
        files := Touched(files, FirstClassifier(desired), c.time);
      }
    }
  }

  // ---- Planning again

  /** Equal names come with equal contents. */
  ghost predicate Consistent(desired: seq<Asset>) {
    forall a, b :: a in desired && b in desired && a.name == b.name ==> a.md5 == b.md5
  }

  lemma {:induction false} StoredHas(files: Files, push: seq<Asset>, now: nat -> nat, name: string)
    ensures Wanted(push, name) ==> name in Stored(files, push, now)
                                   && exists a :: a in push && a.name == name
                                                  && a.md5 == Stored(files, push, now)[name].md5
    ensures !Wanted(push, name) ==> (name in Stored(files, push, now) <==> name in files)
                                    && (name in files ==> Stored(files, push, now)[name] == files[name])
  {
    if |push| > 0 {
      var init, last := push[..|push| - 1], push[|push| - 1];
      StoredHas(files, init, now, name);
      assert push == init + [last];
      assert Wanted(push, name) <==> Wanted(init, name) || last.name == name;
    }
  }

  lemma {:induction false} FirstClassifierIn(desired: seq<Asset>)
    ensures FirstClassifier(desired).Some? ==> FirstClassifier(desired).value in desired
  {
    if |desired| > 0 && desired[0].kind != Classifier {
      FirstClassifierIn(desired[1..]);
    }
  }

  lemma InWanted(desired: seq<Asset>, a: Asset)
    requires a in desired
    ensures Wanted(desired, a.name)
  {
  }

  lemma StoredHolds(desired: seq<Asset>, listed: Files, files: Files, now: nat -> nat, a: Asset)
    requires Consistent(desired) && a in desired && (Has(listed, a) ==> Has(files, a))
    ensures Has(Stored(files, Missing(desired, listed), now), a)
  {
    var push := Missing(desired, listed);
    StoredHas(files, push, now, a.name);
    if !Has(listed, a) {
      InWanted(push, a);
    }
  }

  lemma TouchKeeps(files: Files, sel: Option<Asset>, t: nat, a: Asset)
    requires Has(files, a)
    ensures Has(Touched(files, sel, t), a)
  {
  }

  /** After an unblocked sync a desired asset is held, provided its name stands for one content. */
  lemma SyncedHas(desired: seq<Asset>, listed: Inventory, files: Files, freeMb: Option<int>, slots: int,
                  now: nat -> nat,
                  c: Cleanup, a: Asset)
    requires Lists(listed, files) && Consistent(desired) && a in desired
    requires !PlanOf(desired, listed, freeMb, slots).blocked
    ensures Has(Synced(files, desired, PlanOf(desired, listed, freeMb, slots), now, c), a)
  {
    var p := PlanOf(desired, listed, freeMb, slots);
    PruneIsSafe(desired, listed, freeMb, slots);
    InWanted(desired, a);
    StoredHolds(desired, listed.files, files, now, a);
    TouchKeeps(Removed(Stored(files, p.push, now), p.prune, c), FirstClassifier(desired), c.time, a);
  }

  /** Undesired models after a sync are among those the plan spared. */
  lemma SyncedExtras(desired: seq<Asset>, actual: Inventory, freeMb: Option<int>, slots: int, now: nat -> nat,
                     c: Cleanup, n: string)
    requires !PlanOf(desired, actual, freeMb, slots).blocked && IsExtra(desired, n)
    requires n in Synced(actual.files, desired, PlanOf(desired, actual, freeMb, slots), now, c)
    ensures n in Spared(desired, actual, PlanOf(desired, actual, freeMb, slots))
            || (n in PlanOf(desired, actual, freeMb, slots).prune && !c.removes(n))
  {
    var p := PlanOf(desired, actual, freeMb, slots);
    StoredHas(actual.files, p.push, now, n);
    FirstClassifierIn(desired);
    if FirstClassifier(desired).Some? {
      InWanted(desired, FirstClassifier(desired).value);
    }
    NamedWithin(Missing(desired, actual.files), desired, n);
  }

  lemma NamedWithin(part: seq<Asset>, desired: seq<Asset>, n: string)
    requires forall a :: a in part ==> a in desired
    ensures Wanted(part, n) ==> Wanted(desired, n)
  {
    if Wanted(part, n) {
      var i :| 0 <= i < |part| && part[i].name == n;
      assert part[i] in part;
      InWanted(desired, part[i]);
    }
  }

  lemma {:induction false} NothingMissing(desired: seq<Asset>, files: Files)
    requires forall a :: a in desired ==> Has(files, a)
    ensures Missing(desired, files) == []
  {
    if |desired| > 0 {
      NothingMissing(desired[..|desired| - 1], files);
      assert desired[|desired| - 1] in desired;
    }
  }

  lemma HeldIsConsistent(desired: seq<Asset>, files: Files)
    requires Missing(desired, files) == []
    ensures Consistent(desired)
  {
    forall a, b | a in desired && b in desired && a.name == b.name ensures a.md5 == b.md5 {
      assert a !in Missing(desired, files) && b !in Missing(desired, files);
    }
  }

  /** Every deletion the plan asked for was carried out. */
  ghost predicate AllRemoved(p: Plan, c: Cleanup) {
    forall n :: n in p.prune ==> c.removes(n)
  }

  /** Planning again after an unblocked sync is a no-op, whatever the second listing's order and free space, exactly
      when its deletions were carried out and no two desired assets share a name with different contents. */
  lemma SyncConverges(desired: seq<Asset>, actual: Inventory, freeMb: Option<int>, slots: int, now: nat -> nat,
                      c: Cleanup,
                      again: Inventory, freeMb2: Option<int>)
    requires ValidInventory(actual) && ValidInventory(again)
    requires !PlanOf(desired, actual, freeMb, slots).blocked
    requires again.files == Synced(actual.files, desired, PlanOf(desired, actual, freeMb, slots), now, c)
    ensures IsNoop(PlanOf(desired, again, freeMb2, slots))
       <==> Consistent(desired) && AllRemoved(PlanOf(desired, actual, freeMb, slots), c)
  {
    ExtrasLeft(desired, actual, freeMb, slots, now, c, again);
    PartialSyncConverges(desired, actual, actual.files, freeMb, slots, now, c, again, freeMb2);
  }

  /** The undesired models left fit the slots exactly when every deletion was carried out. */
  lemma ExtrasLeft(desired: seq<Asset>, actual: Inventory, freeMb: Option<int>, slots: int, now: nat -> nat, c: Cleanup,
                   again: Inventory)
    requires ValidInventory(actual) && ValidInventory(again)
    requires !PlanOf(desired, actual, freeMb, slots).blocked
    requires again.files == Synced(actual.files, desired, PlanOf(desired, actual, freeMb, slots), now, c)
    ensures |Extras(desired, again.order)| <= LeftoverSlots(desired, slots)
       <==> AllRemoved(PlanOf(desired, actual, freeMb, slots), c)
  {
    var p := PlanOf(desired, actual, freeMb, slots);
    PruneIsSafe(desired, actual, freeMb, slots);
    ExtrasDistinct(desired, again.order);
    DistinctSize(Extras(desired, again.order));
    if AllRemoved(p, c) {
      ExtrasSpared(desired, actual, freeMb, slots, now, c, again);
    } else {
      var n :| n in p.prune && !c.removes(n);
      ExtrasSurvive(desired, actual, freeMb, slots, now, c, again, n);
    }
  }

  lemma ExtrasSpared(desired: seq<Asset>, actual: Inventory, freeMb: Option<int>, slots: int, now: nat -> nat,
                     c: Cleanup,
                     again: Inventory)
    requires ValidInventory(again) && !PlanOf(desired, actual, freeMb, slots).blocked
    requires again.files == Synced(actual.files, desired, PlanOf(desired, actual, freeMb, slots), now, c)
    requires AllRemoved(PlanOf(desired, actual, freeMb, slots), c)
    ensures |Elements(Extras(desired, again.order))|
         <= |Spared(desired, actual, PlanOf(desired, actual, freeMb, slots))|
  {
    var spared, extras := Spared(desired, actual, PlanOf(desired, actual, freeMb, slots)), Extras(desired, again.order);
    forall n | n in extras ensures n in spared {
      SyncedExtras(desired, actual, freeMb, slots, now, c, n);
    }
    SubsetSize(Elements(extras), spared);
  }

  lemma ExtrasSurvive(desired: seq<Asset>, actual: Inventory, freeMb: Option<int>, slots: int, now: nat -> nat,
                      c: Cleanup,
                      again: Inventory, n: string)
    requires ValidInventory(actual) && ValidInventory(again) && !PlanOf(desired, actual, freeMb, slots).blocked
    requires again.files == Synced(actual.files, desired, PlanOf(desired, actual, freeMb, slots), now, c)
    requires n in PlanOf(desired, actual, freeMb, slots).prune && !c.removes(n)
    ensures |Elements(Extras(desired, again.order))| > |Spared(desired, actual, PlanOf(desired, actual, freeMb, slots))|
  {
    var spared, extras := Spared(desired, actual, PlanOf(desired, actual, freeMb, slots)), Extras(desired, again.order);
    PruneIsSafe(desired, actual, freeMb, slots);
    forall k | k in spared + {n} ensures k in extras {
      SparedSurvives(desired, actual, freeMb, slots, now, c, k);
    }
    SubsetSize(spared + {n}, Elements(extras));
  }

  /** An undesired model that was not deleted is still there. */
  lemma SparedSurvives(desired: seq<Asset>, actual: Inventory, freeMb: Option<int>, slots: int, now: nat -> nat,
                       c: Cleanup, n: string)
    requires !PlanOf(desired, actual, freeMb, slots).blocked && n in actual.files && IsExtra(desired, n)
    requires n in PlanOf(desired, actual, freeMb, slots).prune ==> !c.removes(n)
    ensures n in Synced(actual.files, desired, PlanOf(desired, actual, freeMb, slots), now, c)
  {
    StoredHas(actual.files, PlanOf(desired, actual, freeMb, slots).push, now, n);
    NamedWithin(Missing(desired, actual.files), desired, n);
  }

  /** The selected classifier's name when the device cannot score with it. */
  function MissingSelected(desired: seq<Asset>, files: Files): Option<string> {
    var sel := FirstClassifier(desired);
    if sel.None? || Has(files, sel.value) then None else Some(sel.value.name)
  }

  /** An unblocked sync leaves the device able to score with the selected classifier, whatever of its listing arrived
      and of the clean-up ran. */
  lemma SyncRepairsSelected(desired: seq<Asset>, listed: Inventory, files: Files, freeMb: Option<int>, slots: int,
                            now: nat -> nat, c: Cleanup)
    requires Lists(listed, files) && Consistent(desired)
    ensures var p := PlanOf(desired, listed, freeMb, slots);
            !p.blocked ==> MissingSelected(desired, Synced(files, desired, p, now, c)) == None
  {
    FirstClassifierIn(desired);
    if !PlanOf(desired, listed, freeMb, slots).blocked && FirstClassifier(desired).Some? {
      SyncedHas(desired, listed, files, freeMb, slots, now, c, FirstClassifier(desired).value);
    }
  }

  // ---- Planning on part of a listing

  /** The undesired models on a device that are no older than a time. */
  ghost function ExtrasSince(desired: seq<Asset>, files: Files, t: nat): set<string> {
    set n | n in files && IsExtra(desired, n) && files[n].mtime >= t
  }

  /** A plan made on part of a listing pushes all that is missing, and deletes nothing that is not older than as many
      undesired models as there are slots for. */
  lemma PartialPlanIsSafe(desired: seq<Asset>, listed: Inventory, files: Files, freeMb: Option<int>, slots: int)
    requires Lists(listed, files) && !PlanOf(desired, listed, freeMb, slots).blocked
    ensures var p := PlanOf(desired, listed, freeMb, slots);
            && (forall a :: a in Missing(desired, files) ==> a in p.push)
            && (forall n :: n in p.prune ==>
                  && n in files && IsExtra(desired, n)
                  && |ExtrasSince(desired, files, files[n].mtime)| > LeftoverSlots(desired, slots))
  {
    var p := PlanOf(desired, listed, freeMb, slots);
    PruneIsSafe(desired, listed, freeMb, slots);
    forall n | n in p.prune ensures |ExtrasSince(desired, files, files[n].mtime)| > LeftoverSlots(desired, slots) {
      var spared := Spared(desired, listed, p);
      assert |spared + {n}| == |spared| + 1;
      forall k | k in spared + {n} ensures k in ExtrasSince(desired, files, files[n].mtime) {
        assert Age(listed.files, k) >= Age(listed.files, n);
      }
      SubsetSize(spared + {n}, ExtrasSince(desired, files, files[n].mtime));
    }
  }

  /** After a sync planned on part of a listing, a whole listing gives a no-op exactly when equal names mean equal
      contents and the undesired models fit their slots, the unlisted ones among them. */
  lemma PartialSyncConverges(desired: seq<Asset>, listed: Inventory, files: Files, freeMb: Option<int>, slots: int,
                             now: nat -> nat, c: Cleanup, again: Inventory, freeMb2: Option<int>)
    requires Lists(listed, files) && ValidInventory(again)
    requires !PlanOf(desired, listed, freeMb, slots).blocked
    requires again.files == Synced(files, desired, PlanOf(desired, listed, freeMb, slots), now, c)
    ensures IsNoop(PlanOf(desired, again, freeMb2, slots))
       <==> Consistent(desired) && |Extras(desired, again.order)| <= LeftoverSlots(desired, slots)
  {
    if Consistent(desired) {
      forall a | a in desired ensures Has(again.files, a) {
        SyncedHas(desired, listed, files, freeMb, slots, now, c, a);
      }
      NothingMissing(desired, again.files);
    }
    if IsNoop(PlanOf(desired, again, freeMb2, slots)) {
      HeldIsConsistent(desired, again.files);
    }
  }

  /** With namesakes of different contents no plan is ever a no-op, whatever the device holds. */
  lemma NamesakesNeverSettle(desired: seq<Asset>, inv: Inventory, freeMb: Option<int>, slots: int)
    requires !Consistent(desired)
    ensures !IsNoop(PlanOf(desired, inv, freeMb, slots))
  {
    if Missing(desired, inv.files) == [] {
      HeldIsConsistent(desired, inv.files);
    }
  }

  /** The input: a custom classifier whose file is named like a shared model. */
  lemma CustomNamesake(shared: string, custom: string, freeMb: Option<int>, slots: int, inv: Inventory)
    requires shared != custom
    ensures var desired := [Asset("embedding_model.onnx", shared, 1326578, Shared, false),
                            Asset("embedding_model.onnx", custom, 206000, Classifier, true)];
            !Consistent(desired) && !IsNoop(PlanOf(desired, inv, freeMb, slots))
  {
    var desired := [Asset("embedding_model.onnx", shared, 1326578, Shared, false),
                    Asset("embedding_model.onnx", custom, 206000, Classifier, true)];
    assert desired[0] in desired && desired[1] in desired;
    NamesakesNeverSettle(desired, inv, freeMb, slots);
  }

  // ---- Stopping part-way

  /** What is left of a push list once `done` has been pushed. */
  function Unnamed(push: seq<Asset>, done: seq<Asset>): (r: seq<Asset>)
    ensures |r| <= |push|
  {
    if |push| == 0 then []
    else
      var rest := Unnamed(push[..|push| - 1], done);
      if Wanted(done, push[|push| - 1].name) then rest else rest + [push[|push| - 1]]
  }

  lemma {:induction false} UnnamedAppend(a: seq<Asset>, b: seq<Asset>, done: seq<Asset>)
    ensures Unnamed(a + b, done) == Unnamed(a, done) + Unnamed(b, done)
  {
    if |b| == 0 {
      assert a + b == a;
    } else {
      UnnamedAppend(a, b[..|b| - 1], done);
      assert (a + b)[..|a + b| - 1] == a + b[..|b| - 1];
    }
  }

  lemma {:induction false} AllNamed(a: seq<Asset>, done: seq<Asset>)
    requires forall x :: x in a ==> x in done
    ensures Unnamed(a, done) == []
  {
    if |a| > 0 {
      AllNamed(a[..|a| - 1], done);
      assert a[|a| - 1] in a;
      InWanted(done, a[|a| - 1]);
    }
  }

  /** Of consistent assets, those held after some missing ones were stored are those held before and those stored. */
  lemma HasAfter(desired: seq<Asset>, files: Files, done: seq<Asset>, now: nat -> nat, a: Asset)
    requires Consistent(desired) && a in desired && forall x :: x in done ==> x in Missing(desired, files)
    ensures Has(Stored(files, done, now), a) <==> Has(files, a) || Wanted(done, a.name)
  {
    StoredHas(files, done, now, a.name);
    if Wanted(done, a.name) {
      var i :| 0 <= i < |done| && done[i].name == a.name;
      assert done[i] in done;
      var b :| b in done && b.name == a.name && b.md5 == Stored(files, done, now)[a.name].md5;
      assert b in desired;
    }
  }

  lemma {:induction false} MissingAfter(desired: seq<Asset>, part: seq<Asset>, files: Files, done: seq<Asset>,
                                        now: nat -> nat)
    requires Consistent(desired) && forall x :: x in done ==> x in Missing(desired, files)
    requires forall x :: x in part ==> x in desired
    ensures Missing(part, Stored(files, done, now)) == Unnamed(Missing(part, files), done)
  {
    if |part| > 0 {
      var init, last := part[..|part| - 1], part[|part| - 1];
      assert part == init + [last];
      MissingAfter(desired, init, files, done, now);
      HasAfter(desired, files, done, now, last);
      UnnamedLast(Missing(init, files), last, done);
    }
  }

  lemma UnnamedLast(s: seq<Asset>, last: Asset, done: seq<Asset>)
    ensures Unnamed(s + [last], done) == Unnamed(s, done) + (if Wanted(done, last.name) then [] else [last])
  {
    assert (s + [last])[..|s|] == s;
  }

  lemma ExtraAges(desired: seq<Asset>, files: Files, done: seq<Asset>, now: nat -> nat, n: string)
    requires IsExtra(desired, n) && forall x :: x in done ==> x in desired
    ensures Age(Stored(files, done, now), n) == Age(files, n)
    ensures n in Stored(files, done, now) <==> n in files
  {
    StoredHas(files, done, now, n);
    NamedWithin(done, desired, n);
  }

  /** The extras of a device are the same after pushes, however it is listed. */
  lemma SameExtras(desired: seq<Asset>, actual: Inventory, done: seq<Asset>, now: nat -> nat, again: Inventory)
    requires ValidInventory(actual) && ValidInventory(again) && again.files == Stored(actual.files, done, now)
    requires forall x :: x in done ==> x in desired
    ensures Elements(Extras(desired, again.order)) == Elements(Extras(desired, actual.order))
    ensures |Extras(desired, again.order)| == |Extras(desired, actual.order)|
  {
    forall n ensures n in Extras(desired, again.order) <==> n in Extras(desired, actual.order) {
      if IsExtra(desired, n) {
        ExtraAges(desired, actual.files, done, now, n);
      }
    }
    ExtrasDistinct(desired, again.order);
    ExtrasDistinct(desired, actual.order);
    DistinctSize(Extras(desired, again.order));
    DistinctSize(Extras(desired, actual.order));
  }

  /** A sync that stopped after k pushes leaves the rest of its plan: what it had not pushed, and as many deletions -
      the same ones, if the device still lists its undesired models in the same order. */
  lemma StoppedLeavesRest(desired: seq<Asset>, actual: Inventory, freeMb: Option<int>, slots: int, now: nat -> nat,
                          k: nat,
                          again: Inventory, freeMb2: Option<int>)
    requires ValidInventory(actual) && ValidInventory(again) && Consistent(desired)
    requires k <= |PlanOf(desired, actual, freeMb, slots).push|
    requires again.files == Stored(actual.files, PlanOf(desired, actual, freeMb, slots).push[..k], now)
    requires !PlanOf(desired, actual, freeMb, slots).blocked && !PlanOf(desired, again, freeMb2, slots).blocked
    ensures var p, p2 := PlanOf(desired, actual, freeMb, slots), PlanOf(desired, again, freeMb2, slots);
            && p2.push == Unnamed(p.push[k..], p.push[..k])
            && |p2.prune| == |p.prune|
            && (Extras(desired, again.order) == Extras(desired, actual.order) ==> p2.prune == p.prune)
  {
    StoppedPush(desired, actual.files, now, k);
    var done := Missing(desired, actual.files)[..k];
    assert forall x :: x in done ==> x in Missing(desired, actual.files);
    SameExtras(desired, actual, done, now, again);
    SameEviction(desired, actual, done, now, again);
  }

  lemma StoppedPush(desired: seq<Asset>, files: Files, now: nat -> nat, k: nat)
    requires Consistent(desired) && k <= |Missing(desired, files)|
    ensures var push := Missing(desired, files);
            Missing(desired, Stored(files, push[..k], now)) == Unnamed(push[k..], push[..k])
  {
    var push := Missing(desired, files);
    TakenFrom(push, k);
    MissingAfter(desired, desired, files, push[..k], now);
    RestUnnamed(push, k);
  }

  lemma TakenFrom(push: seq<Asset>, k: nat)
    requires k <= |push|
    ensures forall x :: x in push[..k] ==> x in push
  {
  }

  lemma RestUnnamed(push: seq<Asset>, k: nat)
    requires k <= |push|
    ensures Unnamed(push, push[..k]) == Unnamed(push[k..], push[..k])
  {
    assert push == push[..k] + push[k..];
    UnnamedAppend(push[..k], push[k..], push[..k]);
    AllNamed(push[..k], push[..k]);
  }

  lemma SameEviction(desired: seq<Asset>, actual: Inventory, done: seq<Asset>, now: nat -> nat, again: Inventory)
    requires again.files == Stored(actual.files, done, now) && forall x :: x in done ==> x in desired
    ensures Newest(Extras(desired, actual.order), Ages(again.files))
         == Newest(Extras(desired, actual.order), Ages(actual.files))
  {
    forall n | n in Extras(desired, actual.order) ensures Ages(again.files)(n) == Ages(actual.files)(n) {
      ExtraAges(desired, actual.files, done, now, n);
    }
    NewestAgree(Extras(desired, actual.order), Ages(again.files), Ages(actual.files));
  }

  // ---- Room on the device

  /** The sizes of two lists add up, and one asset takes its own. */
  lemma {:induction false} BytesAdd(a: seq<Asset>, b: seq<Asset>)
    ensures Bytes([]) == 0 && Bytes(a + b) == Bytes(a) + Bytes(b)
    ensures forall x: Asset :: Bytes([x]) == x.size
  {
    forall x: Asset ensures Bytes([x]) == x.size {
      assert [x][..0] == [];
    }
    if |b| == 0 {
      assert a + b == a;
    } else {
      BytesAdd(a, b[..|b| - 1]);
      assert (a + b)[..|a + b| - 1] == a + b[..|b| - 1];
    }
  }

  lemma MegabytesLeft(freeMb: int, bytes: int)
    ensures freeMb as real - bytes as real / 1048576.0 < 50.0 <==> freeMb * 1048576 - bytes < 50 * 1048576
  {
    var q := bytes as real / 1048576.0;
    assert q * 1048576.0 == bytes as real;
    assert (freeMb as real - q) * 1048576.0 == (freeMb * 1048576 - bytes) as real;
  }

  /** A plan is refused for space exactly when something is missing, the free space is known, and less than 50 MB of it
      would be left. */
  lemma BlockedExactly(desired: seq<Asset>, actual: Inventory, freeMb: Option<int>, slots: int)
    ensures PlanOf(desired, actual, freeMb, slots).blocked
       <==> && (exists a :: a in desired && !Has(actual.files, a)) && freeMb.Some?
            && freeMb.value * 1048576 - Bytes(Missing(desired, actual.files)) < 50 * 1048576
  {
    var push := Missing(desired, actual.files);
    if freeMb.Some? {
      MegabytesLeft(freeMb.value, Bytes(push));
    }
    if push != [] {
      assert push[0] in push;
    }
  }

  /** So at every moment of a sync that goes ahead, with k of its files on the device, at least 50 MB are left. */
  lemma RoomThroughout(desired: seq<Asset>, actual: Inventory, freeMb: int, slots: int, k: nat)
    requires !PlanOf(desired, actual, Some(freeMb), slots).blocked
    requires var n := |PlanOf(desired, actual, Some(freeMb), slots).push|; 0 < n && k <= n
    ensures freeMb * 1048576 - Bytes(PlanOf(desired, actual, Some(freeMb), slots).push[..k]) >= 50 * 1048576
  {
    var push := Missing(desired, actual.files);
    BlockedExactly(desired, actual, Some(freeMb), slots);
    assert push[0] in push;
    BytesAdd(push[..k], push[k..]);
    assert push == push[..k] + push[k..];
  }

  // ---- The budget

  /** The places in the list of selected classifiers. */
  ghost function SelectedPlaces(desired: seq<Asset>): set<nat> {
    set i: nat | i < |desired| && desired[i].kind == Classifier && desired[i].selected
  }

  lemma {:induction false} SelectedIsCounted(desired: seq<Asset>)
    ensures SelectedCount(desired) == |SelectedPlaces(desired)|
  {
    if |desired| > 0 {
      var n: nat := |desired| - 1;
      SelectedIsCounted(desired[..n]);
      var last := desired[n].kind == Classifier && desired[n].selected;
      assert SelectedPlaces(desired) == SelectedPlaces(desired[..n]) + if last then {n} else {};
    }
  }

  /** Stock models cost no slot: a plan leaves as many undesired models as there are slots beyond the selected
      classifiers, or all there are, and deletes none that a device needs. */
  lemma BudgetIsSelected(desired: seq<Asset>, actual: Inventory, freeMb: Option<int>, slots: int)
    requires ValidInventory(actual) && !PlanOf(desired, actual, freeMb, slots).blocked
    ensures var p := PlanOf(desired, actual, freeMb, slots);
            var left, spared := slots - |SelectedPlaces(desired)|, |Spared(desired, actual, p)|;
            && (p.prune != [] ==> spared == if left > 0 then left else 0)
            && (p.prune == [] ==> spared <= if left > 0 then left else 0)
            && forall n :: n in p.prune ==>
                 && |n| >= 5 && n[|n| - 5..] == ".onnx" && (forall a :: a in desired ==> a.name != n)
                 && n !in ["melspectrogram.onnx", "embedding_model.onnx", "libonnxruntime.so"]
  {
    SelectedIsCounted(desired);
    PruneIsSafe(desired, actual, freeMb, slots);
    forall n, a | n in PlanOf(desired, actual, freeMb, slots).prune && a in desired ensures a.name != n {
      InWanted(desired, a);
    }
  }

  // ---- Least recently used

  /** The classifier a sync touches is the first of the list. */
  lemma {:induction false} FirstIsFirst(desired: seq<Asset>)
    ensures FirstClassifier(desired).None? <==> forall i :: 0 <= i < |desired| ==> desired[i].kind != Classifier
    ensures FirstClassifier(desired).Some? ==>
              exists i :: 0 <= i < |desired| && desired[i] == FirstClassifier(desired).value
                          && desired[i].kind == Classifier && forall j :: 0 <= j < i ==> desired[j].kind != Classifier
  {
    if |desired| > 0 && desired[0].kind != Classifier {
      FirstIsFirst(desired[1..]);
      forall i | 0 < i < |desired| ensures desired[i] == desired[1..][i - 1] {
      }
      if FirstClassifier(desired).Some? {
        var k :| 0 <= k < |desired[1..]| && desired[1..][k] == FirstClassifier(desired).value
                 && desired[1..][k].kind == Classifier && forall j :: 0 <= j < k ==> desired[1..][j].kind != Classifier;
        assert desired[k + 1] == FirstClassifier(desired).value;
        forall j | 0 <= j < k + 1 ensures desired[j].kind != Classifier {
          assert j > 0 ==> desired[j] == desired[1..][j - 1];
        }
      }
    }
  }

  /** After a sync that touched it, the selected classifier bears the time of the touch, and everything else an older
      one if that time is later than all there was. */
  lemma TouchIsLatest(desired: seq<Asset>, listed: Inventory, files: Files, freeMb: Option<int>, slots: int,
                      now: nat -> nat, c: Cleanup, sel: Asset, n: string)
    requires Lists(listed, files) && Consistent(desired) && FirstClassifier(desired) == Some(sel) && c.touches
    requires var p := PlanOf(desired, listed, freeMb, slots); !p.blocked && !IsNoop(p)
    requires forall k: nat :: now(k) < c.time
    requires forall m :: m in files ==> files[m].mtime < c.time
    ensures var after := Synced(files, desired, PlanOf(desired, listed, freeMb, slots), now, c);
            && sel.name in after && after[sel.name] == FileInfo(sel.md5, c.time)
            && (n in after && n != sel.name ==> after[n].mtime < c.time)
  {
    var p := PlanOf(desired, listed, freeMb, slots);
    FirstClassifierIn(desired);
    SyncedHas(desired, listed, files, freeMb, slots, now, c, sel);
    PruneIsSafe(desired, listed, freeMb, slots);
    InWanted(desired, sel);
    StoredHolds(desired, listed.files, files, now, sel);
    StoredTimes(files, p.push, now, c.time, n);
  }

  lemma {:induction false} StoredTimes(files: Files, push: seq<Asset>, now: nat -> nat, t: nat, n: string)
    requires forall k: nat :: now(k) < t
    requires forall m :: m in files ==> files[m].mtime < t
    ensures n in Stored(files, push, now) ==> Stored(files, push, now)[n].mtime < t
  {
    if |push| > 0 {
      StoredTimes(files, push[..|push| - 1], now, t, n);
    }
  }

  /** Newer than every other undesired model, a model is spared by any plan with a slot to spare. */
  lemma JustUsedSurvives(desired: seq<Asset>, actual: Inventory, freeMb: Option<int>, slots: int, used: string)
    requires ValidInventory(actual) && used in actual.files && slots > |SelectedPlaces(desired)|
    requires forall n :: n in actual.files && n != used ==> actual.files[n].mtime < actual.files[used].mtime
    ensures used !in PlanOf(desired, actual, freeMb, slots).prune
  {
    var p := PlanOf(desired, actual, freeMb, slots);
    SelectedIsCounted(desired);
    PruneIsSafe(desired, actual, freeMb, slots);
    forall n | n in p.prune ensures n != used {
      var k :| k in Spared(desired, actual, p);
      assert Age(actual.files, k) >= Age(actual.files, n);
    }
  }
}
