/**
 Template descriptor construction for an index set: the analyzer of the
 configuration, the index wildcard of the index set and the effective custom
 field mappings, handed together with the mapping strategy chosen by the
 mapping factory to the strategy's rendering step.
 */
module IndexTemplates {
  import opened Wrappers
  import opened FieldMappings

  /**
   The configuration of an index set, restricted to what template resolution
   reads plus its identity. Creation date and rotation/retention strategies are
   not part of this model.
   */
  datatype IndexSetConfig = IndexSetConfig(
    id: string,
    title: string,
    description: string,
    indexPrefix: string,
    shards: nat,
    replicas: nat,
    indexAnalyzer: string,
    indexTemplateName: string,
    indexTemplateType: string,
    indexOptimizationMaxNumSegments: nat,
    indexOptimizationDisabled: bool,
    fieldTypeProfile: Option<string>,
    customFieldMappings: CustomFieldMappings)

  /** A logical index set; its identity (prefix, wildcard) comes from its own config. */
  datatype IndexSet = IndexSet(config: IndexSetConfig)

  /** The pattern matching every index of the set. */
  function IndexWildcard(indexSet: IndexSet): string {
    indexSet.config.indexPrefix + "_*"
  }

  /** A reusable, independently stored set of custom field mappings. */
  datatype IndexFieldTypeProfile = IndexFieldTypeProfile(
    id: string,
    name: string,
    description: string,
    customFieldMappings: CustomFieldMappings)

  /** The resolved template input: analyzer, index match pattern and effective mappings. */
  datatype IndexSetMappingTemplate = IndexSetMappingTemplate(
    analyzer: string,
    indexWildcard: string,
    customFieldMappings: CustomFieldMappings)

  /** The profile service: looks a profile up by id. */
  type ProfileLookup = string -> Option<IndexFieldTypeProfile>

  /** The mapping-strategy collaborator the factory selects, identified by name only. */
  datatype MappingStrategy = MappingStrategy(name: string)

  /**
   The signal a mapping strategy raises when it deliberately skips template
   creation. `cause` is the optional underlying failure, kept as its message.
   */
  datatype IgnoreIndexTemplate = IgnoreIndexTemplate(
    failOnMissingTemplate: bool,
    reason: string,
    indexPrefix: string,
    templateName: string,
    cause: Option<string>)

  /** What the mapping factory yields for a configuration: a strategy, or the ignore signal. */
  datatype MappingOutcome = Created(strategy: MappingStrategy) | Ignored(signal: IgnoreIndexTemplate)

  /** The mapping factory. */
  type MappingFactory = IndexSetConfig -> MappingOutcome

  /**
   One call of the strategy's rendering step: `toTemplate(template)` when
   `maxSegments` is None, `toTemplate(template, n)` when it is Some(n).
   */
  datatype RenderRequest = RenderRequest(
    strategy: MappingStrategy,
    template: IndexSetMappingTemplate,
    maxSegments: Option<nat>)

  /** A build either reaches the rendering step or propagates the ignore signal. */
  datatype BuildOutcome = Rendered(request: RenderRequest) | IgnoreSignalled(signal: IgnoreIndexTemplate)

  /**
   The profile mappings to merge: none when the config references no profile
   or the referenced profile is not found, else the profile's mappings.
   */
  function ProfileMappings(profileId: Option<string>, lookup: ProfileLookup): (ms: CustomFieldMappings)
    ensures profileId.None? ==> ms == []
    ensures profileId.Some? && lookup(profileId.value).None? ==> ms == []
    ensures profileId.Some? && lookup(profileId.value).Some? ==>
              ms == lookup(profileId.value).value.customFieldMappings
  {
    match profileId
    case None => []
    case Some(id) =>
      match lookup(id)
      case None => []
      case Some(profile) => profile.customFieldMappings
  }

  /**
   The descriptor for `indexSet` resolved against `config` (the index set's own
   config, or a changed one being simulated before it is stored): analyzer and
   mappings come from `config`, the wildcard from the index set's identity.
   The mappings are the own ones followed by exactly the profile-only entries.
   */
  function TemplateDescriptor(indexSet: IndexSet, config: IndexSetConfig, lookup: ProfileLookup)
    : (t: IndexSetMappingTemplate)
    ensures t.analyzer == config.indexAnalyzer
    ensures t.indexWildcard == indexSet.config.indexPrefix + "_*"
    ensures |config.customFieldMappings| <= |t.customFieldMappings|
    ensures t.customFieldMappings[..|config.customFieldMappings|] == config.customFieldMappings
    ensures t.customFieldMappings[|config.customFieldMappings|..]
         == ProfileOnly(config.customFieldMappings, ProfileMappings(config.fieldTypeProfile, lookup))
    ensures forall f :: TypeOf(t.customFieldMappings, f) ==
              if f in FieldNames(config.customFieldMappings)
              then TypeOf(config.customFieldMappings, f)
              else TypeOf(ProfileMappings(config.fieldTypeProfile, lookup), f)
  {
    var profile := ProfileMappings(config.fieldTypeProfile, lookup);
    forall f ensures TypeOf(Merge(config.customFieldMappings, profile), f) ==
                     if f in FieldNames(config.customFieldMappings)
                     then TypeOf(config.customFieldMappings, f) else TypeOf(profile, f) {
      MergePrecedence(config.customFieldMappings, profile, f);
    }
    IndexSetMappingTemplate(config.indexAnalyzer, IndexWildcard(indexSet),
                            Merge(config.customFieldMappings, profile))
  }

  /** `getIndexTemplate`: renders the index set's own descriptor with the one-argument `toTemplate`. */
  function GetIndexTemplate(indexSet: IndexSet, factory: MappingFactory, lookup: ProfileLookup)
    : (r: BuildOutcome)
    ensures factory(indexSet.config).Ignored? <==> r.IgnoreSignalled?
    ensures r.IgnoreSignalled? ==> r.signal == factory(indexSet.config).signal
    ensures r.Rendered? ==>
              && r.request.strategy == factory(indexSet.config).strategy
              && r.request.template == TemplateDescriptor(indexSet, indexSet.config, lookup)
              && r.request.maxSegments.None?
  {
    match factory(indexSet.config)
    case Ignored(signal) => IgnoreSignalled(signal)
    case Created(strategy) =>
      Rendered(RenderRequest(strategy, TemplateDescriptor(indexSet, indexSet.config, lookup), None))
  }

  /**
   `buildTemplate(indexSet, config)`: asks the factory for `config`'s strategy
   and renders the descriptor with a segment count of 0.
   */
  function BuildTemplate(indexSet: IndexSet, config: IndexSetConfig, factory: MappingFactory, lookup: ProfileLookup)
    : (r: BuildOutcome)
    ensures factory(config).Ignored? <==> r.IgnoreSignalled?
    ensures r.IgnoreSignalled? ==> r.signal == factory(config).signal
    ensures r.Rendered? ==>
              && r.request.strategy == factory(config).strategy
              && r.request.template == TemplateDescriptor(indexSet, config, lookup)
              && r.request.maxSegments == Some(0)
  {
    match factory(config)
    case Ignored(signal) => IgnoreSignalled(signal)
    case Created(strategy) =>
      Rendered(RenderRequest(strategy, TemplateDescriptor(indexSet, config, lookup), Some(0)))
  }

  /**
   Building against the index set's own config renders the same descriptor
   with the same strategy as `getIndexTemplate`; only the segment count differs.
   */
  lemma BuildAgreesWithGet(indexSet: IndexSet, factory: MappingFactory, lookup: ProfileLookup)
    ensures var b := BuildTemplate(indexSet, indexSet.config, factory, lookup);
            var g := GetIndexTemplate(indexSet, factory, lookup);
            && (b.Rendered? <==> g.Rendered?)
            && (b.Rendered? ==> b.request == g.request.(maxSegments := Some(0)))
            && (b.IgnoreSignalled? ==> b == g)
  {
  }

  /** Without a usable profile the descriptor carries exactly the index set's own mappings. */
  lemma DescriptorWithoutProfile(indexSet: IndexSet, config: IndexSetConfig, lookup: ProfileLookup)
    requires config.fieldTypeProfile.None?
          || lookup(config.fieldTypeProfile.value).None?
          || lookup(config.fieldTypeProfile.value).value.customFieldMappings == []
    ensures TemplateDescriptor(indexSet, config, lookup).customFieldMappings == config.customFieldMappings
  {
  }

  // ---------------------------------------------------------------------------
  // The configurations and profiles of the template tests.

  const TestProfileId := "000000000000000000000013"

  /** The test index set: prefix, template name/type, profile reference and own mappings vary. */
  function TestConfig(prefix: string, templateName: string, templateType: string,
                      profileId: Option<string>, mappings: CustomFieldMappings): IndexSetConfig
  {
    IndexSetConfig("index-set-1", "Index set 1", "For testing", prefix, 1, 0, "standard",
                   templateName, templateType, 1, false, profileId, mappings)
  }

  const OwnMappings: CustomFieldMappings :=
    [CustomFieldMapping("f1", "string"), CustomFieldMapping("f2", "long")]

  const ProfileWithMappings := IndexFieldTypeProfile(TestProfileId, "test_profile", "Test profile",
    [CustomFieldMapping("f1", "ip"), CustomFieldMapping("f3", "ip")])

  const EmptyProfile := IndexFieldTypeProfile(TestProfileId, "empty_test_profile", "Empty test profile", [])

  /** A lookup that only knows `profile`. */
  function LookupOnly(profile: IndexFieldTypeProfile): ProfileLookup {
    (id: string) => if id == profile.id then Some(profile) else None
  }

  /** A factory that always selects `strategy`. */
  function AlwaysCreates(strategy: MappingStrategy): MappingFactory {
    (c: IndexSetConfig) => Created(strategy)
  }

  /** Own mappings win, profile-only f3 is appended; both entry points render the same descriptor. */
  lemma TemplateWithProfileExample(strategy: MappingStrategy)
    ensures var indexSet := IndexSet(TestConfig("test", "test-template-profiles", "custom",
                                                Some(TestProfileId), OwnMappings));
            var expected := IndexSetMappingTemplate("standard", "test_*",
                              [CustomFieldMapping("f1", "string"), CustomFieldMapping("f2", "long"),
                               CustomFieldMapping("f3", "ip")]);
            && GetIndexTemplate(indexSet, AlwaysCreates(strategy), LookupOnly(ProfileWithMappings))
                 == Rendered(RenderRequest(strategy, expected, None))
            && BuildTemplate(indexSet, indexSet.config, AlwaysCreates(strategy), LookupOnly(ProfileWithMappings))
                 == Rendered(RenderRequest(strategy, expected, Some(0)))
  {
    assert ProfileMappings(Some(TestProfileId), LookupOnly(ProfileWithMappings))
        == ProfileWithMappings.customFieldMappings;
    MergeExample();
  }

  /** An existing profile with no mappings, or no profile found, leaves the own mappings unchanged. */
  lemma TemplateWithoutProfileMappingsExample(strategy: MappingStrategy)
    ensures var indexSet := IndexSet(TestConfig("test", "test-template-profiles", "custom",
                                                Some(TestProfileId), OwnMappings));
            var expected := IndexSetMappingTemplate("standard", "test_*", OwnMappings);
            && GetIndexTemplate(indexSet, AlwaysCreates(strategy), LookupOnly(EmptyProfile))
                 == Rendered(RenderRequest(strategy, expected, None))
            && GetIndexTemplate(indexSet, AlwaysCreates(strategy), (id: string) => None)
                 == Rendered(RenderRequest(strategy, expected, None))
  {
  }
}
