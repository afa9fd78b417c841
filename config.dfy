/**
 * The estimator's configuration: built-in defaults for values a manifest
 * does not declare, and the merge of caller overrides onto those defaults.
 * A zero number or an empty string means "not provided".
 */
module Config {

  const E2 := "E2"
  const N1 := "N1"
  const N2 := "N2"
  const N2D := "N2D"

  datatype ResourceConfig = ResourceConfig(
    machineFamily: string,
    region: string,
    defaultCPUinMillis: int,
    defaultMemoryinBytes: int,
    percentageIncreaseForUnboundedResources: int)

  datatype ClusterConfig = ClusterConfig(nodesCount: int)

  datatype CostimatorConfig = CostimatorConfig(resourceConf: ResourceConfig, clusterConf: ClusterConfig)

  /** The configuration a caller gets when it provides nothing. */
  const EmptyConfig := CostimatorConfig(ResourceConfig("", "", 0, 0, 0), ClusterConfig(0))

  /** Every field is provided: non-empty strings and non-zero numbers. */
  predicate IsComplete(c: CostimatorConfig)
  {
    && c.resourceConf.machineFamily != ""
    && c.resourceConf.region != ""
    && c.resourceConf.defaultCPUinMillis != 0
    && c.resourceConf.defaultMemoryinBytes != 0
    && c.resourceConf.percentageIncreaseForUnboundedResources != 0
    && c.clusterConf.nodesCount != 0
  }

  /** E2 machines in us-central1, 250 millicores, 64000000 bytes, a 200% buffer and 3 nodes. */
  function ConfigDefaults(): (c: CostimatorConfig)
    ensures IsComplete(c)
    ensures c.resourceConf.percentageIncreaseForUnboundedResources == 200
  {
    CostimatorConfig(
      ResourceConfig(E2, "us-central1", 250, 64000000, 200),
      ClusterConfig(3))
  }

  /** Each field of `conf` that is provided wins; every other field takes its default. */
  function PopulateConfigNotProvided(conf: CostimatorConfig): (r: CostimatorConfig)
    ensures IsComplete(r)
    ensures var (given, got, dflt) := (conf.resourceConf, r.resourceConf, ConfigDefaults().resourceConf);
      && got.machineFamily == (if given.machineFamily != "" then given.machineFamily else dflt.machineFamily)
      && got.region == (if given.region != "" then given.region else dflt.region)
      && got.defaultCPUinMillis == (if given.defaultCPUinMillis != 0 then given.defaultCPUinMillis else dflt.defaultCPUinMillis)
      && got.defaultMemoryinBytes == (if given.defaultMemoryinBytes != 0 then given.defaultMemoryinBytes else dflt.defaultMemoryinBytes)
      && got.percentageIncreaseForUnboundedResources ==
         (if given.percentageIncreaseForUnboundedResources != 0 then given.percentageIncreaseForUnboundedResources
          else dflt.percentageIncreaseForUnboundedResources)
    ensures r.clusterConf.nodesCount ==
      (if conf.clusterConf.nodesCount != 0 then conf.clusterConf.nodesCount else ConfigDefaults().clusterConf.nodesCount)
  {
    var ret := ConfigDefaults();
    var ret := if conf.resourceConf.machineFamily != "" then ret.(resourceConf := ret.resourceConf.(machineFamily := conf.resourceConf.machineFamily)) else ret;
    var ret := if conf.resourceConf.region != "" then ret.(resourceConf := ret.resourceConf.(region := conf.resourceConf.region)) else ret;
    var ret := if conf.resourceConf.defaultCPUinMillis != 0 then ret.(resourceConf := ret.resourceConf.(defaultCPUinMillis := conf.resourceConf.defaultCPUinMillis)) else ret;
    var ret := if conf.resourceConf.defaultMemoryinBytes != 0 then ret.(resourceConf := ret.resourceConf.(defaultMemoryinBytes := conf.resourceConf.defaultMemoryinBytes)) else ret;
    var ret := if conf.resourceConf.percentageIncreaseForUnboundedResources != 0
      then ret.(resourceConf := ret.resourceConf.(percentageIncreaseForUnboundedResources := conf.resourceConf.percentageIncreaseForUnboundedResources))
      else ret;
    if conf.clusterConf.nodesCount != 0 then ret.(clusterConf := ret.clusterConf.(nodesCount := conf.clusterConf.nodesCount)) else ret
  }

  /** Populating the empty configuration yields exactly the defaults. */
  lemma PopulateEmptyIsDefaults()
    ensures PopulateConfigNotProvided(EmptyConfig) == ConfigDefaults()
  {
  }

  /** A configuration that provides every field is returned unchanged. */
  lemma PopulateCompleteIsIdentity(conf: CostimatorConfig)
    requires IsComplete(conf)
    ensures PopulateConfigNotProvided(conf) == conf
  {
  }

  /** Populating twice is populating once. */
  lemma PopulateIdempotent(conf: CostimatorConfig)
    ensures PopulateConfigNotProvided(PopulateConfigNotProvided(conf)) == PopulateConfigNotProvided(conf)
  {
    PopulateCompleteIsIdentity(PopulateConfigNotProvided(conf));
  }
}
