/**
 The missing-template guard of `ensureIndexTemplate`: when the mapping
 strategy signals that template creation is skipped, the backend's answer to
 "does the template exist?" and the signal's fail-on-missing flag decide
 between success and a template-not-found failure.
 */
module TemplateGuard {
  import opened Wrappers
  import opened IndexTemplates

  /** The backend adapter's existence check for an index template name. */
  type TemplateExists = string -> bool

  /**
   How `ensureIndexTemplate` ends: the descriptor reaches the strategy's
   rendering step (and from there the backend); creation was skipped and that
   is acceptable; or the required template is missing.
   */
  datatype EnsureOutcome =
    | Applied(request: RenderRequest)
    | Skipped(signal: IgnoreIndexTemplate)
    | TemplateNotFound(message: string)

  /** The message of the template-not-found failure. */
  function NotFoundMessage(templateName: string, templateType: string): string {
    "No index template with name '" + templateName + "' (type - '" + templateType + "') found in Elasticsearch"
  }

  // The concatenation steps of the test message, one literal at a time, so
  // that each stays a small obligation for the solver.

  lemma MessageUpToName()
    ensures "No index template with name '" + "test-template" == "No index template with name 'test-template"
  {
  }

  lemma MessageUpToTypeQuote()
    ensures "No index template with name 'test-template" + "' (type - '"
         == "No index template with name 'test-template' (type - '"
  {
  }

  lemma MessageUpToType()
    ensures "No index template with name 'test-template' (type - '" + "custom"
         == "No index template with name 'test-template' (type - 'custom"
  {
  }

  lemma MessageWhole()
    ensures "No index template with name 'test-template' (type - 'custom" + "') found in Elasticsearch"
         == "No index template with name 'test-template' (type - 'custom') found in Elasticsearch"
  {
  }

  /** The message names the template and its type in the fixed wording. */
  lemma NotFoundMessageExample()
    ensures NotFoundMessage("test-template", "custom")
         == "No index template with name 'test-template' (type - 'custom') found in Elasticsearch"
  {
    MessageUpToName();
    MessageUpToTypeQuote();
    MessageUpToType();
    MessageWhole();
  }

  /**
   `ensureIndexTemplate(indexSet)`: builds the template for the index set's
   own config; on the ignore signal, fails only when the signal demands a
   template and the backend has none under the configured template name.
   */
  function EnsureIndexTemplate(indexSet: IndexSet, factory: MappingFactory, lookup: ProfileLookup,
                               templateExists: TemplateExists): (r: EnsureOutcome)
    ensures var config := indexSet.config;
            r.TemplateNotFound? <==>
              && factory(config).Ignored?
              && factory(config).signal.failOnMissingTemplate
              && !templateExists(config.indexTemplateName)
    ensures r.TemplateNotFound? ==>
              r.message == NotFoundMessage(indexSet.config.indexTemplateName, indexSet.config.indexTemplateType)
    ensures r.Applied? <==> factory(indexSet.config).Created?
    ensures r.Applied? ==>
              && r.request.strategy == factory(indexSet.config).strategy
              && r.request.template == TemplateDescriptor(indexSet, indexSet.config, lookup)
              && r.request.maxSegments == Some(0)
    ensures r.Skipped? ==> r.signal == factory(indexSet.config).signal
  {
    var config := indexSet.config;
    match BuildTemplate(indexSet, config, factory, lookup)
    case Rendered(request) => Applied(request)
    case IgnoreSignalled(signal) =>
      if signal.failOnMissingTemplate && !templateExists(config.indexTemplateName) then
        TemplateNotFound(NotFoundMessage(config.indexTemplateName, config.indexTemplateType))
      else
        Skipped(signal)
  }

  /** A template that already exists satisfies the guard whatever the flag says. */
  lemma ExistingTemplateIsNeverMissing(indexSet: IndexSet, factory: MappingFactory, lookup: ProfileLookup,
                                       templateExists: TemplateExists)
    requires factory(indexSet.config).Ignored?
    requires templateExists(indexSet.config.indexTemplateName)
    ensures EnsureIndexTemplate(indexSet, factory, lookup, templateExists) == Skipped(factory(indexSet.config).signal)
  {
  }

  /**
   With fail-on-missing off the absence is tolerated by policy: the outcome
   does not depend on the backend's answer at all.
   */
  lemma TolerantSignalIgnoresBackend(indexSet: IndexSet, factory: MappingFactory, lookup: ProfileLookup,
                                     exists1: TemplateExists, exists2: TemplateExists)
    requires factory(indexSet.config).Ignored?
    requires !factory(indexSet.config).signal.failOnMissingTemplate
    ensures EnsureIndexTemplate(indexSet, factory, lookup, exists1)
         == EnsureIndexTemplate(indexSet, factory, lookup, exists2)
         == Skipped(factory(indexSet.config).signal)
  {
  }

  // ---------------------------------------------------------------------------
  // The three ensure scenarios of the tests.

  /** The signal every scenario's factory raises, differing only in the flag. */
  function TestSignal(failOnMissing: bool): IgnoreIndexTemplate {
    IgnoreIndexTemplate(failOnMissing, "Reasom", "test", "test-template", None)
  }

  function AlwaysIgnores(signal: IgnoreIndexTemplate): MappingFactory {
    (c: IndexSetConfig) => Ignored(signal)
  }

  /** The index set of the scenarios: no profile, no own mappings. */
  const ScenarioIndexSet := IndexSet(TestConfig("test", "test-template", "custom", None, []))

  /** Scenario A: the template is required and exists, so ensure succeeds. */
  lemma EnsureScenarioExisting(lookup: ProfileLookup)
    ensures !EnsureIndexTemplate(ScenarioIndexSet, AlwaysIgnores(TestSignal(true)), lookup,
                                 (name: string) => name == "test-template").TemplateNotFound?
  {
  }

  /** Scenario B: the template is required and absent, so ensure fails with the fixed message. */
  lemma EnsureScenarioMissing(lookup: ProfileLookup)
    ensures EnsureIndexTemplate(ScenarioIndexSet, AlwaysIgnores(TestSignal(true)), lookup,
                                (name: string) => false)
         == TemplateNotFound("No index template with name 'test-template' (type - 'custom') found in Elasticsearch")
  {
    NotFoundMessageExample();
  }

  /** Scenario C: the template is not required, so ensure succeeds whatever the backend holds. */
  lemma EnsureScenarioTolerated(lookup: ProfileLookup, templateExists: TemplateExists)
    ensures EnsureIndexTemplate(ScenarioIndexSet, AlwaysIgnores(TestSignal(false)), lookup, templateExists)
         == Skipped(TestSignal(false))
  {
  }
}
