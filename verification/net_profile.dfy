/** `getNetProfile`: concurrency and prefetch window from the reported connection type. */
module NetProfile {
  import opened Wrappers
  import opened Text
  import opened SequenceConfig

  datatype Profile = Profile(maxInflight: int, window: int)

  /** `navigator.connection?.effectiveType || "4g"`. */
  function EffectiveType(reported: Option<string>): string {
    if reported.Some? && reported.value != "" then reported.value else "4g"
  }

  /** `/2g|3g/.test(et)`. */
  predicate IsSlow(et: string) {
    Contains(et, "2g") || Contains(et, "3g")
  }

  function GetNetProfile(reported: Option<string>, o: NetOverride): (r: Profile)
    ensures o.maxInflight.Some? ==> r.maxInflight == o.maxInflight.value
    ensures o.window.Some? ==> r.window == o.window.value
    ensures o.maxInflight.None? ==> r.maxInflight == if IsSlow(EffectiveType(reported)) then 3 else 6
    ensures o.window.None? ==> r.window == if IsSlow(EffectiveType(reported)) then 12 else 28
  {
    var slow := IsSlow(EffectiveType(reported));
    Profile(o.maxInflight.GetOr(if slow then 3 else 6), o.window.GetOr(if slow then 12 else 28))
  }

  /** The connection types browsers report: 2g-class and 3g are slow; 4g, and no report at all, are not. */
  lemma KnownConnectionTypes(o: NetOverride)
    requires o == NetOverride(None, None)
    ensures GetNetProfile(None, o) == Profile(6, 28)
    ensures GetNetProfile(Some(""), o) == Profile(6, 28)
    ensures GetNetProfile(Some("4g"), o) == Profile(6, 28)
    ensures GetNetProfile(Some("3g"), o) == Profile(3, 12)
    ensures GetNetProfile(Some("2g"), o) == Profile(3, 12)
    ensures GetNetProfile(Some("slow-2g"), o) == Profile(3, 12)
  {
    assert !IsSlow("4g") by {
      assert "4g"[..2][0] == '4';
      assert !StartsWith("4g", "2g") && !StartsWith("4g", "3g");
      assert "4g"[1..] == "g" && "g"[1..] == "";
    }
    assert StartsWith("3g", "3g");
    assert StartsWith("2g", "2g");
    assert Contains("slow-2g", "2g") by {
      var s := "slow-2g";
      assert s[1..][1..][1..][1..][1..] == "2g";
      assert StartsWith("2g", "2g");
    }
  }
}
