/**
 * The wasm module's height-gated store filters: which writes of the module the
 * multi-store commits, which versions it prunes, which version floor it reports,
 * and when the module's upgrade version is stamped on its store.
 */
module WasmModuleAdapter {
  import opened Base

  /** The wasm module's store name. */
  const ModuleName: string := "wasm"

  /**
   * The chain's activation ("earth") height and the gate that compares a block
   * height against it. Neither is defined in the modelled file, so both are
   * parameters: the model does not decide whether the gate is strict.
   */
  datatype Upgrade = Upgrade(earthHeight: int, higherThanEarth: int -> bool)

  /**
   * A gate that is closed below the earth height and open above it; whether it
   * is open at the earth height itself is left open.
   */
  ghost predicate ThresholdGate(u: Upgrade) {
    (forall h :: h < u.earthHeight ==> !u.higherThanEarth(h)) &&
    (forall h :: h > u.earthHeight ==> u.higherThanEarth(h))
  }

  /** What a store filter decides for one (module, height) pair. */
  datatype Decision = Exclude | Include | IncludeAndStamp

  /** The deny filter: excludes the wasm module, and only it, at every height. */
  function DefaultDenyFilter(name: string, h: int): (exclude: bool)
    ensures exclude <==> name == ModuleName
  {
    name == ModuleName
  }

  /** The commit filter's decision, the specification of `DefaultCommitFilter`. */
  function CommitDecision(u: Upgrade, name: string, h: int): (d: Decision)
    ensures name != ModuleName ==> d == Include
    ensures d == IncludeAndStamp <==> name == ModuleName && h == u.earthHeight
    ensures name == ModuleName && h != u.earthHeight ==> (d == Exclude <==> !u.higherThanEarth(h))
  {
    if name != ModuleName then Include
    else if h == u.earthHeight then IncludeAndStamp
    else if u.higherThanEarth(h) then Include
    else Exclude
  }

  /** The part of a `CommitKVStore` the commit filter touches. */
  class CommitKVStore {
    var upgradeVersion: int

    constructor (version: int)
      ensures upgradeVersion == version
    {
      upgradeVersion := version;
    }

    method SetUpgradeVersion(h: int)
      modifies this
      ensures upgradeVersion == h
    {
      upgradeVersion := h;
    }
  }

  /**
   * The commit filter: true excludes the module's writes at height `h`. At the
   * earth height it includes them and stamps the height on the store, if there
   * is one.
   */
  method DefaultCommitFilter(u: Upgrade, name: string, h: int, s: CommitKVStore?) returns (exclude: bool)
    modifies s
    ensures exclude <==> CommitDecision(u, name, h) == Exclude
    ensures s != null ==>
      s.upgradeVersion == if CommitDecision(u, name, h) == IncludeAndStamp then h else old(s.upgradeVersion)
  {
    if name != ModuleName {
      return false;
    }
    if h == u.earthHeight {
      if s != null {
        s.SetUpgradeVersion(h);
      }
      return false;
    }
    if u.higherThanEarth(h) {
      return false;
    }
    return true;
  }

  /** The prune filter: excludes the wasm module exactly while the gate is closed. */
  function DefaultPruneFilter(u: Upgrade, name: string, h: int): (exclude: bool)
    ensures exclude <==> name == ModuleName && !u.higherThanEarth(h)
  {
    if name != ModuleName then false
    else if u.higherThanEarth(h) then false
    else true
  }

  /**
   * The version filter for height `h`: the (name, version) pairs its enumerator
   * hands to the callback, in order.
   */
  function DefaultVersionFilter(u: Upgrade, h: int): (entries: seq<(string, int)>)
    ensures |entries| == if h < 0 then 0 else 1
    ensures forall i :: 0 <= i < |entries| ==> entries[i] == (ModuleName, u.earthHeight)
  {
    if h < 0 then [] else [(ModuleName, u.earthHeight)]
  }

  /** The filters the module can hand to the multi-store. */
  datatype StoreFilter = DenyFilter | CommitDefault | PruneDefault

  /** The module's upgrade height: the earth height. */
  function UpgradeHeight(u: Upgrade): (h: int)
    ensures h == u.earthHeight
  {
    u.earthHeight
  }

  /** The commit filter the module installs: deny-all while no upgrade height is set. */
  function CommitFilter(u: Upgrade): (f: StoreFilter)
    ensures f == DenyFilter <==> UpgradeHeight(u) == 0
    ensures f != DenyFilter ==> f == CommitDefault
  {
    if UpgradeHeight(u) == 0 then DenyFilter else CommitDefault
  }

  /** The prune filter the module installs: deny-all while no upgrade height is set. */
  function PruneFilter(u: Upgrade): (f: StoreFilter)
    ensures f == DenyFilter <==> UpgradeHeight(u) == 0
    ensures f != DenyFilter ==> f == PruneDefault
  {
    if UpgradeHeight(u) == 0 then DenyFilter else PruneDefault
  }

  /**
   * What filter `f` answers for store `name` at height `h`: true excludes. The
   * store the commit filter stamps is `DefaultCommitFilter`'s business.
   */
  function Apply(f: StoreFilter, u: Upgrade, name: string, h: int): (exclude: bool)
    ensures f == DenyFilter ==> (exclude <==> DefaultDenyFilter(name, h))
    ensures f == CommitDefault ==> (exclude <==> CommitDecision(u, name, h) == Exclude)
    ensures f == PruneDefault ==> (exclude <==> DefaultPruneFilter(u, name, h))
  {
    match f
    case DenyFilter => DefaultDenyFilter(name, h)
    case CommitDefault => CommitDecision(u, name, h) == Exclude
    case PruneDefault => DefaultPruneFilter(u, name, h)
  }

  /**
   * The installed filters: with an upgrade height they are the default commit
   * and prune filters; without one they exclude the wasm store, and only it,
   * at every height.
   */
  lemma InstalledFilters(u: Upgrade, name: string, h: int)
    ensures UpgradeHeight(u) != 0 ==>
      (Apply(CommitFilter(u), u, name, h) <==> CommitDecision(u, name, h) == Exclude) &&
      (Apply(PruneFilter(u), u, name, h) <==> DefaultPruneFilter(u, name, h))
    ensures UpgradeHeight(u) == 0 ==>
      (Apply(CommitFilter(u), u, name, h) <==> name == ModuleName) &&
      (Apply(PruneFilter(u), u, name, h) <==> name == ModuleName)
  {
  }

  /** `ExportGenesis`: nothing before the gate opens, otherwise the marshalled genesis state. */
  function ExportGenesis(u: Upgrade, blockHeight: int, marshalled: seq<Byte>): (r: Option<seq<Byte>>)
    ensures r.None? <==> !u.higherThanEarth(blockHeight)
    ensures r.Some? ==> r.value == marshalled
  {
    if !u.higherThanEarth(blockHeight) then None else Some(marshalled)
  }

  /**
   * With a threshold gate the commit filter has three states: it excludes the
   * wasm module below the earth height, includes and stamps at it, and
   * includes without stamping above it.
   */
  lemma CommitFilterThreeStates(u: Upgrade, h: int)
    requires ThresholdGate(u)
    ensures h < u.earthHeight ==> CommitDecision(u, ModuleName, h) == Exclude
    ensures h == u.earthHeight ==> CommitDecision(u, ModuleName, h) == IncludeAndStamp
    ensures h > u.earthHeight ==> CommitDecision(u, ModuleName, h) == Include
  {
  }

  /**
   * Commit and prune disagree at the earth height when the gate is still closed
   * there: the commit filter keeps the writes, the prune filter excludes them.
   */
  lemma CommitAndPruneAtEarth(u: Upgrade)
    ensures CommitDecision(u, ModuleName, u.earthHeight) != Exclude
    ensures DefaultPruneFilter(u, ModuleName, u.earthHeight) <==> !u.higherThanEarth(u.earthHeight)
  {
  }

  /** Heights in the order the store commits them: strictly increasing. */
  ghost predicate StrictlyIncreasing(hs: seq<int>) {
    forall i, j :: 0 <= i < j < |hs| ==> hs[i] < hs[j]
  }

  /**
   * How many of the commits at heights `hs` stamp the upgrade version of store
   * `name` under the default commit filter (the one installed when the upgrade
   * height is non-zero).
   */
  function StampCount(u: Upgrade, name: string, hs: seq<int>): (n: nat) {
    if hs == [] then 0
    else (if CommitDecision(u, name, hs[0]) == IncludeAndStamp then 1 else 0) + StampCount(u, name, hs[1..])
  }

  /**
   * Over any run of commits at increasing heights under the default commit
   * filter, the upgrade version is stamped at most once, and exactly once when
   * the run is for the wasm module and passes through the earth height.
   */
  lemma {:induction false} StampsAtMostOnce(u: Upgrade, name: string, hs: seq<int>)
    requires StrictlyIncreasing(hs)
    ensures StampCount(u, name, hs) <= 1
    ensures StampCount(u, name, hs) == 1 <==> name == ModuleName && u.earthHeight in hs
  {
    if hs != [] {
      var rest := hs[1..];
      assert StrictlyIncreasing(rest) by {
        forall i, j | 0 <= i < j < |rest| ensures rest[i] < rest[j] {
          assert rest[i] == hs[i + 1] && rest[j] == hs[j + 1];
        }
      }
      StampsAtMostOnce(u, name, rest);
      assert u.earthHeight in hs <==> u.earthHeight == hs[0] || u.earthHeight in rest by {
        assert hs == [hs[0]] + rest;
      }
      if hs[0] == u.earthHeight {
        assert u.earthHeight !in rest by {
          forall k | 0 <= k < |rest| ensures rest[k] != u.earthHeight {
            assert rest[k] == hs[k + 1];
          }
        }
      }
    }
  }
}
