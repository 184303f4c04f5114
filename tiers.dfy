/**
 * The tier catalog and its transitions (configurations,
 * configuration_maps, find_next_configuration).
 */
module Tiers {
  import opened Wrappers

  /**
   * A pod count as Python holds it: an `int` read from the deployment or
   * the catalog, or a `float` once it has been halved with `/`.
   */
  datatype PodCount = Whole(n: int) | Float(x: real)
  {
    function Value(): real
    {
      match this
      case Whole(n) => n as real
      case Float(x) => x
    }

    /** `pod_count * 2`: an int stays an int, a float stays a float. */
    function Doubled(): (d: PodCount)
      ensures d.Value() == 2.0 * Value()
      ensures d.Whole? == Whole?
    {
      match this
      case Whole(n) => Whole(2 * n)
      case Float(x) => Float(2.0 * x)
    }

    /** `pod_count / 2`: true division, always a float, neither floored nor bounded below. */
    function Halved(): (h: PodCount)
      ensures h.Float? && 2.0 * h.Value() == Value()
    {
      Float(Value() / 2.0)
    }
  }

  /** A resource configuration: cpu and memory quantities as the deployment spells them, and a pod count. */
  datatype Config = Config(cpu: string, memory: string, pods: PodCount)

  /** The three catalog tiers, smallest first. */
  datatype Tier = C1 | C2 | C3

  /** Every tier runs at 250m of cpu with one or two pods. */
  function Catalog(t: Tier): (c: Config)
    ensures c.cpu == "250m" && c.pods.Whole? && 1 <= c.pods.n <= 2
  {
    match t
    case C1 => Config("250m", "250Mi", Whole(1))
    case C2 => Config("250m", "500Mi", Whole(1))
    case C3 => Config("250m", "500Mi", Whole(2))
  }

  /** No two tiers share a configuration. */
  lemma CatalogDistinct(t: Tier, u: Tier)
    requires Catalog(t) == Catalog(u)
    ensures t == u
  {
  }

  /** The tiers as `configuration_maps` lists them, keyed by "cpu x memory x pods". */
  const ConfigurationMaps: map<string, Tier> :=
    map["250mx250Mix1" := C1, "250mx500Mix1" := C2, "250mx500Mix2" := C3]

  function Digit(d: nat): char
    requires d < 10
  {
    (48 + d) as char
  }

  /** The decimal text of a natural number, as `str` gives it. */
  function NatToString(n: nat): (s: string)
    ensures |s| >= 1
    ensures n >= 10 ==> |s| >= 2
  {
    if n < 10 then [Digit(n)] else NatToString(n / 10) + [Digit(n % 10)]
  }

  /** The decimal text of an integer, as `str` gives it. */
  function IntToString(n: int): string
  {
    if n < 0 then "-" + NatToString(-n) else NatToString(n)
  }

  /**
   * The catalog tier of a configuration, found as the adapter finds it: by
   * the key `f'{cpu}x{memory}x{pod_count}'`. The text of a float always
   * holds '.', 'e', "inf" or "nan" and never equals a catalog key, so a
   * float pod count has no tier.
   */
  function CurrentTier(cpu: string, memory: string, pods: PodCount): (t: Option<Tier>)
    ensures t.Some? ==> Config(cpu, memory, pods) == Catalog(t.value)
  {
    match pods
    case Float(_) => None
    case Whole(n) =>
      var key := cpu + "x" + memory + "x" + IntToString(n);
      if key in ConfigurationMaps then
        KeyDeterminesConfig(cpu, memory, n);
        Some(ConfigurationMaps[key])
      else None
  }

  lemma SingleDigit(n: int, c: char)
    requires IntToString(n) == [c]
    ensures 0 <= n < 10 && c == Digit(n)
  {
  }

  /** A key whose 'x' separators sit at positions 4 and 10 only splits one way. */
  lemma SplitKey(cpu: string, memory: string, digits: string, key: string)
    requires cpu + "x" + memory + "x" + digits == key
    requires |key| == 12
    requires forall i :: 0 <= i < |key| && key[i] == 'x' ==> i == 4 || i == 10
    ensures cpu == key[..4] && memory == key[5..10] && digits == key[11..]
  {
    assert key[|cpu|] == 'x';
    assert key[|cpu| + 1 + |memory|] == 'x';
    assert key[..|cpu|] == cpu;
    assert key[|cpu| + 1..|cpu| + 1 + |memory|] == memory;
    assert key[|cpu| + 2 + |memory|..] == digits;
  }

  /** Every catalog key is twelve characters long, with its 'x' separators at positions 4 and 10 only. */
  lemma KeyShape(key: string)
    requires key in ConfigurationMaps
    ensures |key| == 12
    ensures forall i :: 0 <= i < |key| && key[i] == 'x' ==> i == 4 || i == 10
  {
  }

  /** Each tier's key is the key its catalog configuration formats to. */
  lemma CatalogKey(t: Tier)
    ensures var c := Catalog(t);
            c.pods.Whole? && c.cpu + "x" + c.memory + "x" + IntToString(c.pods.n) in ConfigurationMaps
            && ConfigurationMaps[c.cpu + "x" + c.memory + "x" + IntToString(c.pods.n)] == t
  {
    assert IntToString(1) == "1" && IntToString(2) == "2";
    match t
    case C1 => assert "250m" + "x" + "250Mi" + "x" + "1" == "250mx250Mix1";
    case C2 => assert "250m" + "x" + "500Mi" + "x" + "1" == "250mx500Mix1";
    case C3 => assert "250m" + "x" + "500Mi" + "x" + "2" == "250mx500Mix2";
  }

  /** A configuration whose key is a catalog key is that tier's catalog configuration. */
  lemma KeyDeterminesConfig(cpu: string, memory: string, n: int)
    requires cpu + "x" + memory + "x" + IntToString(n) in ConfigurationMaps
    ensures Config(cpu, memory, Whole(n)) == Catalog(ConfigurationMaps[cpu + "x" + memory + "x" + IntToString(n)])
  {
    var key := cpu + "x" + memory + "x" + IntToString(n);
    KeyShape(key);
    SplitKey(cpu, memory, IntToString(n), key);
    SingleDigit(n, key[11]);
    assert Digit(1) == '1' && Digit(2) == '2';
    if key == "250mx250Mix1" {
      assert key[..4] == "250m" && key[5..10] == "250Mi" && key[11] == '1';
    } else if key == "250mx500Mix1" {
      assert key[..4] == "250m" && key[5..10] == "500Mi" && key[11] == '1';
    } else {
      assert key[..4] == "250m" && key[5..10] == "500Mi" && key[11] == '2';
    }
  }

  /**
   * Looking a configuration up by its text key finds tier `t` exactly when
   * the configuration is, field by field, the catalog entry of `t`.
   */
  lemma CurrentTierIsCatalogMatch(cpu: string, memory: string, pods: PodCount, t: Tier)
    ensures CurrentTier(cpu, memory, pods) == Some(t) <==> Config(cpu, memory, pods) == Catalog(t)
  {
    CatalogKey(t);
    if pods.Whole? && cpu + "x" + memory + "x" + IntToString(pods.n) in ConfigurationMaps {
      KeyDeterminesConfig(cpu, memory, pods.n);
    }
  }

  /** The catalog entry of a configuration, if there is one. */
  function MatchedTier(c: Config): (t: Option<Tier>)
    ensures t == CurrentTier(c.cpu, c.memory, c.pods)
    ensures t.Some? <==> exists u :: c == Catalog(u)
    ensures t.Some? ==> c == Catalog(t.value)
  {
    CurrentTierIsCatalogMatch(c.cpu, c.memory, c.pods, C1);
    CurrentTierIsCatalogMatch(c.cpu, c.memory, c.pods, C2);
    CurrentTierIsCatalogMatch(c.cpu, c.memory, c.pods, C3);
    CurrentTier(c.cpu, c.memory, c.pods)
  }

  /** The position of a tier in the catalog, from 1 (smallest) to 3. */
  function Rank(t: Tier): (r: nat)
    ensures 1 <= r <= 3
  {
    match t
    case C1 => 1
    case C2 => 2
    case C3 => 3
  }

  function TierAt(rank: int): (t: Tier)
    requires 1 <= rank <= 3
    ensures Rank(t) == rank
  {
    if rank == 1 then C1 else if rank == 2 then C2 else C3
  }

  /** The direction of a transition: one tier down or one tier up. */
  function Step(downScale: bool): int
  {
    if downScale then -1 else 1
  }

  /**
   * The configuration to move to from (cpu, memory, pods). Scaling up goes
   * from c1 to c2 and from c2 to c3; from c3 or from a configuration
   * outside the catalog it doubles the pod count at 250m / 500Mi. Scaling
   * down goes from c3 to c2 and from c2 to c1, has nowhere to go from c1,
   * and halves the pod count at 250m / 500Mi outside the catalog.
   */
  function FindNextConfiguration(cpu: string, memory: string, pods: PodCount, downScale: bool): (next: Option<Config>)
    ensures !downScale ==> next.Some?
    ensures downScale ==> (next.None? <==> Config(cpu, memory, pods) == Catalog(C1))
    ensures next.Some? ==> next.value.cpu == "250m"
    ensures !downScale ==> next.value.memory == "500Mi"
    ensures forall t, u :: Config(cpu, memory, pods) == Catalog(t) && Rank(u) == Rank(t) + Step(downScale) ==>
              next == Some(Catalog(u))
    ensures !downScale && (Config(cpu, memory, pods) == Catalog(C3) || forall t :: Config(cpu, memory, pods) != Catalog(t)) ==>
              next == Some(Config("250m", "500Mi", pods.Doubled()))
    ensures downScale && (forall t :: Config(cpu, memory, pods) != Catalog(t)) ==>
              next == Some(Config("250m", "500Mi", pods.Halved()))
  {
    var current := MatchedTier(Config(cpu, memory, pods));
    if !downScale then
      if current == Some(C1) then Some(Catalog(C2))
      else if current == Some(C2) then Some(Catalog(C3))
      else Some(Config("250m", "500Mi", pods.Doubled()))
    else
      if current == Some(C1) then None
      else if current == Some(C2) then Some(Catalog(C1))
      else if current == Some(C3) then Some(Catalog(C2))
      else Some(Config("250m", "500Mi", pods.Halved()))
  }

  /** Scaling down from the tier that scaling up reached returns to where it started. */
  lemma ScaleDownUndoesScaleUp(t: Tier)
    requires t != C3
    ensures var up := FindNextConfiguration(Catalog(t).cpu, Catalog(t).memory, Catalog(t).pods, false);
            up.Some? && FindNextConfiguration(up.value.cpu, up.value.memory, up.value.pods, true) == Some(Catalog(t))
  {
    var up := TierAt(Rank(t) + 1);
    assert FindNextConfiguration(Catalog(t).cpu, Catalog(t).memory, Catalog(t).pods, false) == Some(Catalog(up));
    assert Rank(up) - 1 == Rank(t);
  }

  /** Scaling up from the tier that scaling down reached returns to where it started. */
  lemma ScaleUpUndoesScaleDown(t: Tier)
    requires t != C1
    ensures var down := FindNextConfiguration(Catalog(t).cpu, Catalog(t).memory, Catalog(t).pods, true);
            down.Some? && FindNextConfiguration(down.value.cpu, down.value.memory, down.value.pods, false) == Some(Catalog(t))
  {
    var down := TierAt(Rank(t) - 1);
    assert FindNextConfiguration(Catalog(t).cpu, Catalog(t).memory, Catalog(t).pods, true) == Some(Catalog(down));
    assert Rank(down) + 1 == Rank(t);
  }

  /** Above the largest tier, scaling up doubles the pods: c3 becomes 250m / 500Mi with 4 pods. */
  lemma ScaleUpBeyondCatalog()
    ensures FindNextConfiguration("250m", "500Mi", Whole(2), false) == Some(Config("250m", "500Mi", Whole(4)))
  {
    assert Config("250m", "500Mi", Whole(2)) == Catalog(C3);
  }

  /**
   * Halving has neither floor nor minimum: one pod outside the catalog
   * scales down to half a pod, and three pods to one and a half.
   */
  lemma HalvingHasNoFloor()
    ensures FindNextConfiguration("500m", "1Gi", Whole(1), true) == Some(Config("250m", "500Mi", Float(0.5)))
    ensures FindNextConfiguration("250m", "500Mi", Whole(3), true) == Some(Config("250m", "500Mi", Float(1.5)))
  {
    assert forall t :: Config("500m", "1Gi", Whole(1)) != Catalog(t);
    assert forall t :: Config("250m", "500Mi", Whole(3)) != Catalog(t);
  }
}
