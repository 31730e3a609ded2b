/** Choice of the Amazon Nova Pro inference profile by region. The S3 and the
    RDS scanner each carry a copy of this choice; the copies differ only in
    the profile used for a region with none of the known prefixes. */
module ModelIds {
  import opened Common

  const NOVA_PRO_MODEL_ID: string := "amazon.nova-pro-v1:0"

  /** The profile prefix for a region: "apac." for "ap…", "eu." for "eu…",
      "us." for "us…", and the given fallback otherwise. */
  function RegionPrefix(region: string, fallback: string): string
  {
    if StartsWith(region, "ap") then "apac."
    else if StartsWith(region, "eu") then "eu."
    else if StartsWith(region, "us") then "us."
    else fallback
  }

  /** The S3 scanner's copy: unknown regions use the EU profile. */
  function S3ModelId(region: string): string
  {
    RegionPrefix(region, "eu.") + NOVA_PRO_MODEL_ID
  }

  /** The RDS scanner's copy: unknown regions use the APAC profile. */
  function RdsModelId(region: string): string
  {
    RegionPrefix(region, "apac.") + NOVA_PRO_MODEL_ID
  }

  /** The error text both scanners return when the model cannot be invoked. */
  function CantInvoke(modelId: string, reason: string): string
  {
    "ERROR: Can't invoke '" + modelId + "'. Reason: " + reason
  }

  predicate KnownRegion(region: string)
  {
    StartsWith(region, "ap") || StartsWith(region, "eu") || StartsWith(region, "us")
  }

  lemma S3ModelIdCases(region: string)
    ensures StartsWith(region, "ap") ==> S3ModelId(region) == "apac." + NOVA_PRO_MODEL_ID
    ensures StartsWith(region, "eu") ==> S3ModelId(region) == "eu." + NOVA_PRO_MODEL_ID
    ensures StartsWith(region, "us") ==> S3ModelId(region) == "us." + NOVA_PRO_MODEL_ID
    ensures !KnownRegion(region) ==> S3ModelId(region) == "eu." + NOVA_PRO_MODEL_ID
  {
    PrefixesExclusive(region);
  }

  lemma RdsModelIdCases(region: string)
    ensures StartsWith(region, "ap") ==> RdsModelId(region) == "apac." + NOVA_PRO_MODEL_ID
    ensures StartsWith(region, "eu") ==> RdsModelId(region) == "eu." + NOVA_PRO_MODEL_ID
    ensures StartsWith(region, "us") ==> RdsModelId(region) == "us." + NOVA_PRO_MODEL_ID
    ensures !KnownRegion(region) ==> RdsModelId(region) == "apac." + NOVA_PRO_MODEL_ID
  {
    PrefixesExclusive(region);
  }

  /** No region starts with two of the known prefixes. */
  lemma PrefixesExclusive(region: string)
    ensures StartsWith(region, "ap") ==> !StartsWith(region, "eu") && !StartsWith(region, "us")
    ensures StartsWith(region, "eu") ==> !StartsWith(region, "us")
  {
    if StartsWith(region, "ap") {
      assert region[0] == 'a';
    }
    if StartsWith(region, "eu") {
      assert region[0] == 'e';
    }
  }

  /** The two copies agree exactly on the regions with a known prefix. */
  lemma CopiesAgreeOnKnownRegions(region: string)
    ensures S3ModelId(region) == RdsModelId(region) <==> KnownRegion(region)
  {
    if !KnownRegion(region) {
      assert S3ModelId(region)[1] != RdsModelId(region)[1];
    }
  }
}
