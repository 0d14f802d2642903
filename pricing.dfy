/**
 * PricingConfiguration of rides/models.py: a table of fare settings in which
 * saving an active row deactivates every other row.
 */
module Pricing {
  import opened Wrappers

  /** One PricingConfiguration row; the decimal columns are exact reals. */
  datatype PricingConfig = PricingConfig(
    name: string,
    baseFare: real,
    pricePerKm: real,
    pricePerMinute: real,
    commissionRate: real,
    isActive: bool)

  /** Rows are kept in primary-key order: `configs[k]` is the row whose pk is `k`. */
  ghost predicate AtMostOneActive(configs: seq<PricingConfig>) {
    forall i, j :: 0 <= i < |configs| && 0 <= j < |configs| && configs[i].isActive && configs[j].isActive ==> i == j
  }

  /** The pricing columns of a row, everything but `is_active`. */
  function Rates(c: PricingConfig): (string, real, real, real, real) {
    (c.name, c.baseFare, c.pricePerKm, c.pricePerMinute, c.commissionRate)
  }

  /**
   * The table after `save` of row `pk` with the values `cfg` (an update when
   * `pk` exists, an insert when `pk` is the next key): when `cfg` is active,
   * every other active row is first switched off.
   */
  function SavedTable(configs: seq<PricingConfig>, pk: nat, cfg: PricingConfig): (r: seq<PricingConfig>)
    requires pk <= |configs|
    ensures |r| == if pk == |configs| then |configs| + 1 else |configs|
    ensures r[pk] == cfg
  {
    var others := if cfg.isActive
      then seq(|configs|, i requires 0 <= i < |configs| => configs[i].(isActive := false))
      else configs;
    if pk == |configs| then others + [cfg] else others[pk := cfg]
  }

  /** Saving an active row leaves it the only active one. */
  lemma SaveActiveIsTheOnlyActive(configs: seq<PricingConfig>, pk: nat, cfg: PricingConfig)
    requires pk <= |configs| && cfg.isActive
    ensures var r := SavedTable(configs, pk, cfg);
      r[pk].isActive && forall i :: 0 <= i < |r| && i != pk ==> !r[i].isActive
  {
  }

  /** Saving an inactive row changes no other row at all. */
  lemma SaveInactiveKeepsOthers(configs: seq<PricingConfig>, pk: nat, cfg: PricingConfig)
    requires pk <= |configs| && !cfg.isActive
    ensures var r := SavedTable(configs, pk, cfg);
      forall i :: 0 <= i < |configs| && i != pk ==> r[i] == configs[i]
  {
  }

  /** A save never touches another row's pricing columns, only its `is_active` flag. */
  lemma SaveKeepsOtherRates(configs: seq<PricingConfig>, pk: nat, cfg: PricingConfig)
    requires pk <= |configs|
    ensures var r := SavedTable(configs, pk, cfg);
      forall i :: 0 <= i < |configs| && i != pk ==> Rates(r[i]) == Rates(configs[i])
  {
  }

  /** "At most one active row" is kept by every save. */
  lemma SavePreservesAtMostOneActive(configs: seq<PricingConfig>, pk: nat, cfg: PricingConfig)
    requires pk <= |configs| && AtMostOneActive(configs)
    ensures AtMostOneActive(SavedTable(configs, pk, cfg))
  {
    var r := SavedTable(configs, pk, cfg);
    if cfg.isActive {
      SaveActiveIsTheOnlyActive(configs, pk, cfg);
    } else {
      forall i, j | 0 <= i < |r| && 0 <= j < |r| && r[i].isActive && r[j].isActive ensures i == j {
        assert i != pk && j != pk;
        assert configs[i].isActive && configs[j].isActive;
      }
    }
  }

  /** Row `k` is active and no row with a smaller pk is. */
  ghost predicate IsFirstActive(configs: seq<PricingConfig>, k: int) {
    0 <= k < |configs| && configs[k].isActive && forall i :: 0 <= i < k ==> !configs[i].isActive
  }

  /** The active config the estimate uses: the active row with the smallest primary key. */
  function FirstActive(configs: seq<PricingConfig>): (r: Option<PricingConfig>)
    ensures r.None? <==> forall i :: 0 <= i < |configs| ==> !configs[i].isActive
    ensures r.Some? ==> exists k :: IsFirstActive(configs, k) && configs[k] == r.value
  {
    if configs == [] then None
    else if configs[0].isActive then
      assert IsFirstActive(configs, 0);
      Some(configs[0])
    else
      var rest := FirstActive(configs[1..]);
      assert rest.Some? ==> exists k :: IsFirstActive(configs, k) && configs[k] == rest.value by {
        if rest.Some? {
          var k :| IsFirstActive(configs[1..], k) && configs[1..][k] == rest.value;
          assert IsFirstActive(configs, k + 1);
        }
      }
      rest
  }

  /** After an active row is saved, the fare estimate uses exactly that row. */
  lemma EstimateUsesLastActivated(configs: seq<PricingConfig>, pk: nat, cfg: PricingConfig)
    requires pk <= |configs| && cfg.isActive
    ensures FirstActive(SavedTable(configs, pk, cfg)) == Some(cfg)
  {
    var r := SavedTable(configs, pk, cfg);
    SaveActiveIsTheOnlyActive(configs, pk, cfg);
    var c := FirstActive(r);
    assert r[pk].isActive;
    var k :| IsFirstActive(r, k) && r[k] == c.value;
    assert k == pk;
  }

  /** The configuration table with its save operation. */
  class PricingTable {
    var configs: seq<PricingConfig>

    constructor ()
      ensures configs == []
    {
      configs := [];
    }

    /**
     * PricingConfiguration.save for the row with primary key `pk`: the bulk
     * update of the other active rows, then the write of this row.
     */
    method Save(pk: nat, cfg: PricingConfig)
      requires pk <= |configs|
      modifies this
      ensures configs == SavedTable(old(configs), pk, cfg)
    {
      var rows := configs;
      if cfg.isActive {
        rows := seq(|rows|, i requires 0 <= i < |rows| =>
          if rows[i].isActive && i != pk then rows[i].(isActive := false) else rows[i]);
      }
      if pk == |rows| {
        rows := rows + [cfg];
      } else {
        rows := rows[pk := cfg];
      }
      configs := rows;
    }

    /** The configuration the estimate view reads. */
    function Active(): (r: Option<PricingConfig>)
      reads this
      ensures r == FirstActive(configs)
      ensures r.None? <==> forall i :: 0 <= i < |configs| ==> !configs[i].isActive
      ensures r.Some? ==> exists k :: IsFirstActive(configs, k) && configs[k] == r.value
    {
      FirstActive(configs)
    }
  }
}
