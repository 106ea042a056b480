/**
 * Partner scoring: a partner earns 40, 30, 20 and 10 points for offering an
 * API, real-time operation, optional KYC and stablecoin readiness; 60 points
 * approve it, and 80 points give it the FULL mode rather than LIMITED.
 */
module PartnerAI {

  /** The four capability flags the scoring reads, each as its truth value. */
  datatype Capabilities = Capabilities(api: bool, realtime: bool, kycOptional: bool, stablecoinReady: bool)

  datatype Mode = Full | Limited

  datatype Inspection = Inspection(score: int, approved: bool, mode: Mode)

  /** The points one flag is worth when set. */
  function Points(flag: bool, worth: nat): nat
  {
    if flag then worth else 0
  }

  /** `inspect_partner`: the score is accumulated flag by flag, then thresholded. */
  function InspectPartner(c: Capabilities): (r: Inspection)
    ensures r.score == Points(c.api, 40) + Points(c.realtime, 30) + Points(c.kycOptional, 20) + Points(c.stablecoinReady, 10)
    ensures 0 <= r.score <= 100 && r.score % 10 == 0
    // the thresholds, read as conditions on the flags
    ensures r.approved <==> (c.api && (c.realtime || c.kycOptional)) || (c.realtime && c.kycOptional && c.stablecoinReady)
    ensures r.mode == Full <==> c.api && c.realtime && (c.kycOptional || c.stablecoinReady)
    ensures r.mode == Full ==> r.approved
  {
    var s0 := 0;
    var s1 := if c.api then s0 + 40 else s0;
    var s2 := if c.realtime then s1 + 30 else s1;
    var s3 := if c.kycOptional then s2 + 20 else s2;
    var score := if c.stablecoinReady then s3 + 10 else s3;
    Inspection(score, score >= 60, if score >= 80 then Full else Limited)
  }

  /** `c` has every flag that `d` has. */
  predicate HasAllOf(c: Capabilities, d: Capabilities)
  {
    (d.api ==> c.api) && (d.realtime ==> c.realtime) && (d.kycOptional ==> c.kycOptional)
    && (d.stablecoinReady ==> c.stablecoinReady)
  }

  /** Setting more flags never lowers the score, never revokes approval and never downgrades FULL. */
  lemma MoreFlagsNeverHurt(c: Capabilities, d: Capabilities)
    requires HasAllOf(c, d)
    ensures InspectPartner(c).score >= InspectPartner(d).score
    ensures InspectPartner(d).approved ==> InspectPartner(c).approved
    ensures InspectPartner(d).mode == Full ==> InspectPartner(c).mode == Full
  {
  }

  /** FULL needs the API flag; approval needs the API or the real-time flag. */
  lemma ApiGates(c: Capabilities)
    ensures InspectPartner(c).mode == Full ==> c.api
    ensures InspectPartner(c).approved ==> c.api || c.realtime
  {
  }
}
