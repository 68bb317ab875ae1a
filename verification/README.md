# Index-template resolution of the Graylog server, in Dafny

This project models how the server's `Indices` service resolves the index template of an index set, and one small piece of the web interface's query input.

- **Field-mapping merge.** An index set has its own custom field mappings, each a (field name, type) pair. It may reference a field-type profile, which has mappings of its own. The effective mappings are the own mappings, unchanged and in order, followed by the profile entries whose field the own mappings do not declare, in profile order. On a clash the own type wins. With no profile reference, an unknown profile or an empty profile, the own mappings are used exactly as they are.
- **Template descriptor.** The descriptor holds the configured analyzer, the index wildcard `<prefix>_*` and the effective mappings. It goes, together with the strategy the mapping factory selected, to the strategy's `toTemplate`. `getIndexTemplate` uses the one-argument form. `buildTemplate` passes a segment count of 0.
- **Missing-template guard.** The mapping factory may raise the ignore signal instead of returning a strategy. Then `ensureIndexTemplate` fails with "No index template with name '<name>' (type - '<type>') found in Elasticsearch", but only when the signal asks for the template and the backend has none under that name. In every other case it succeeds.
- **Block status.** `getIndicesBlocksStatus` on a null or empty list returns an empty status (zero blocked indices) without asking the backend. Any other list is handed to the backend adapter.
- **Query-input markers.** `getMarkers` turns the error explanations and then the warning explanations of a query validation into background editor markers. Each marker copies its explanation's span and carries its group's class. `isEnabledInput` is the negation of `isDisabledInput`.

The collaborators are function parameters:
- the profile service (`ProfileLookup`);
- the mapping factory (`MappingFactory`), which yields `Created(strategy)` or `Ignored(signal)` in place of throwing `IgnoreIndexTemplate`;
- the backend's `indexTemplateExists` (`TemplateExists`);
- the backend's block-status query (`BlockStatusAdapter`).

Java's `null` and TypeScript's `undefined` are `Option.None`.

Files:
- `wrappers.dfy`: `Option`.
- `field_mappings.dfy`: the merge.
- `index_templates.dfy`: the configuration and the descriptor builder.
- `template_guard.dfy`: the guard.
- `block_status.dfy`: the block status.
- `query_markers.dfy`: the web-interface markers.

`Indices.java` and `CustomFieldMappings.java` are not part of this model. Their behaviour is taken from what `IndicesTest.java` asserts:
- The test at lines 177-202, named "when profile is null", actually supplies an existing profile with no mappings.
- The test at lines 204-223, named "when profile has no own mappings", supplies no profile: the mocked lookup returns an empty `Optional`.

The model covers both cases.

## Model

| member | source | states |
|---|---|---|
| FieldMappings.Merge | graylog2-server/src/test/java/org/graylog2/indexer/indices/IndicesTest.java:145-175 | The merged mappings start with the own mappings, unchanged. What follows them is exactly the profile entries whose field name the own mappings do not declare. |
| FieldMappings.ProfileOnly | graylog2-server/src/test/java/org/graylog2/indexer/indices/IndicesTest.java:150-173 | The appended part holds a profile entry exactly when its field is not declared by the own mappings, and is never longer than the profile. |
| FieldMappings.ProfileOnlyAppend | graylog2-server/src/test/java/org/graylog2/indexer/indices/IndicesTest.java:150-173 | Selecting profile-only entries distributes over concatenation, so the appended entries keep their profile order. |
| FieldMappings.MergePrecedence | graylog2-server/src/test/java/org/graylog2/indexer/indices/IndicesTest.java:150-173 | For every field name, the merged type is the own type when the index set declares the field (f1 stays string), and otherwise the profile's type. |
| FieldMappings.MergeFieldNames | graylog2-server/src/test/java/org/graylog2/indexer/indices/IndicesTest.java:145-175 | The merged mappings declare exactly the union of both sources' field names. |
| FieldMappings.MergeKeepsUniqueFieldNames | graylog2-server/src/test/java/org/graylog2/indexer/indices/IndicesTest.java:150-173 | If neither source repeats a field name, the merged mappings do not either. The result stays keyed by field name. |
| FieldMappings.MergeEmptyProfile | graylog2-server/src/test/java/org/graylog2/indexer/indices/IndicesTest.java:178-202 | An empty profile mapping list leaves the own mappings exactly as they are. |
| FieldMappings.MergeIdempotent | graylog2-server/src/test/java/org/graylog2/indexer/indices/IndicesTest.java:145-175 | Merging the same profile into already merged mappings changes nothing. |
| FieldMappings.MergeExample | graylog2-server/src/test/java/org/graylog2/indexer/indices/IndicesTest.java:150-173 | [(f1,string),(f2,long)] merged with [(f1,ip),(f3,ip)] is [(f1,string),(f2,long),(f3,ip)]. |
| FieldMappings.MergeInsertionOrdered | graylog2-server/src/test/java/org/graylog2/indexer/indices/IndicesTest.java:150-173 | One loop that filters the profile entries against the set of own field names, after the own entries, computes exactly the merge for every input. |
| IndexTemplates.ProfileMappings | graylog2-server/src/test/java/org/graylog2/indexer/indices/IndicesTest.java:178-223 | A missing profile reference or a lookup that finds nothing contributes no mappings. A found profile contributes its own mappings. |
| IndexTemplates.TemplateDescriptor | graylog2-server/src/test/java/org/graylog2/indexer/indices/IndicesTest.java:167-173 | The descriptor's analyzer is the config's analyzer and its wildcard is `prefix + "_*"`. Its mappings are the own mappings followed by exactly the profile-only entries, so every field resolves with own-over-profile precedence. |
| IndexTemplates.GetIndexTemplate | graylog2-server/src/test/java/org/graylog2/indexer/indices/IndicesTest.java:163-174 | The descriptor goes to the factory's strategy through the one-argument `toTemplate`. An ignore signal from the factory is passed on unchanged. |
| IndexTemplates.BuildTemplate | graylog2-server/src/test/java/org/graylog2/indexer/indices/IndicesTest.java:244-256 | The descriptor for the given config goes to that config's strategy with segment count 0. An ignore signal is passed on unchanged. |
| IndexTemplates.BuildAgreesWithGet | graylog2-server/src/test/java/org/graylog2/indexer/indices/IndicesTest.java:226-256 | On the index set's own config, build and get render the same descriptor with the same strategy; only the segment count differs (0 vs none). |
| IndexTemplates.DescriptorWithoutProfile | graylog2-server/src/test/java/org/graylog2/indexer/indices/IndicesTest.java:178-223 | With no profile reference, a profile not found, or an empty profile, the descriptor carries exactly the own mappings. |
| IndexTemplates.TemplateWithProfileExample | graylog2-server/src/test/java/org/graylog2/indexer/indices/IndicesTest.java:145-175 | The test index set with profile ...13 yields `("standard", "test_*", [(f1,string),(f2,long),(f3,ip)])` from both get and build. |
| IndexTemplates.TemplateWithoutProfileMappingsExample | graylog2-server/src/test/java/org/graylog2/indexer/indices/IndicesTest.java:177-223 | An empty profile and an absent profile both yield `("standard", "test_*", own mappings)`. |
| TemplateGuard.EnsureIndexTemplate | graylog2-server/src/test/java/org/graylog2/indexer/indices/IndicesTest.java:92-128 | Ensure fails exactly when the factory raises the ignore signal, the signal demands the template, and the backend lacks the configured template name. The failure message names that template and its type. A created strategy gets the build descriptor with segment count 0. |
| TemplateGuard.ExistingTemplateIsNeverMissing | graylog2-server/src/test/java/org/graylog2/indexer/indices/IndicesTest.java:93-103 | On an ignore signal, an existing template means success, whatever the flag says. |
| TemplateGuard.TolerantSignalIgnoresBackend | graylog2-server/src/test/java/org/graylog2/indexer/indices/IndicesTest.java:119-128 | With fail-on-missing off, the outcome is success and does not depend on the backend's existence answer. |
| TemplateGuard.NotFoundMessageExample | graylog2-server/src/test/java/org/graylog2/indexer/indices/IndicesTest.java:116 | The message for template `test-template` of type `custom` is the exact text the test expects. |
| TemplateGuard.EnsureScenarioExisting | graylog2-server/src/test/java/org/graylog2/indexer/indices/IndicesTest.java:92-103 | Required template that exists: no failure. |
| TemplateGuard.EnsureScenarioMissing | graylog2-server/src/test/java/org/graylog2/indexer/indices/IndicesTest.java:105-117 | Required template that is absent: template-not-found failure with the exact message. |
| TemplateGuard.EnsureScenarioTolerated | graylog2-server/src/test/java/org/graylog2/indexer/indices/IndicesTest.java:119-128 | Template not required: success, for every backend answer. |
| BlockStatus.GetIndicesBlocksStatus | graylog2-server/src/test/java/org/graylog2/indexer/indices/IndicesTest.java:130-142 | A null or empty list yields a status with zero blocked indices and no detail. Any other list yields the backend adapter's status. |
| BlockStatus.EmptyQueryNeedsNoBackend | graylog2-server/src/test/java/org/graylog2/indexer/indices/IndicesTest.java:130-142 | For a null or empty list, every backend gives the same status, so the backend is never consulted. |
| QueryMarkers.CreateMarkers | graylog2-web-interface/src/views/components/searchbar/queryinput/BaseQueryInput.tsx:51-63 | Exactly one marker per explanation, in explanation order. Each marker copies beginLine/beginColumn/endLine/endColumn to startRow/startCol/endRow/endCol and has type `background` and the given class. |
| QueryMarkers.GetMarkers | graylog2-web-interface/src/views/components/searchbar/queryinput/BaseQueryInput.tsx:49-69 | The number of markers is the number of error explanations plus warning explanations; an undefined state counts as none. The error markers (class `ace_marker ace_validation_error`) come first and the warning markers (class `ace_marker ace_validation_warning`) follow, each in order. |
| QueryMarkers.ErrorAndWarningClassesDiffer | graylog2-web-interface/src/views/components/searchbar/queryinput/BaseQueryInput.tsx:66-67 | The two group class names are different strings. |
| QueryMarkers.MarkersSplitByClass | graylog2-web-interface/src/views/components/searchbar/queryinput/BaseQueryInput.tsx:65-68 | The error-classed markers are exactly the markers of the error explanations, and the warning-classed markers those of the warning explanations. |
| QueryMarkers.ErrorMarkersPrecedeWarnings | graylog2-web-interface/src/views/components/searchbar/queryinput/BaseQueryInput.tsx:65-68 | Every error-classed marker precedes every warning-classed marker. |
| QueryMarkers.IsEnabledInput | graylog2-web-interface/src/views/components/searchbar/queryinput/BaseQueryInput.tsx:71-72 | `isEnabledInput(p)` holds exactly when `isDisabledInput(p)` does not. |

## Left out

- The backend adapter (template existence, template creation, block-state queries) is modelled only through function parameters. Per-index block aggregation belongs to that adapter and is not modelled.
- Rendering a descriptor into the backend's native template (`IndexMappingTemplate.toTemplate`) is external. The model stops at the render request: strategy, descriptor and segment count.
- After a successful build, `ensureIndexTemplate` hands the template to the backend and sends audit events. That step is not modelled: `Applied` carries the request that would be handed over.
- Failures of the collaborators other than the ignore signal propagate unchanged in the source. The model has no such failures.
- Audit sending, the event bus, node ids, creation dates and rotation/retention strategy configuration do not take part in resolution, so they are not in the model.
- Which template name the guard checks and reports is not pinned down by the tests: the config's template name and the signal's template name are both `test-template` there. The model uses the config's name and type. The type can only come from the config.
- How a profile reference that is an empty string is treated is not evidenced. The model looks up every present reference.
- The tests compare whole mapping collections. The model fixes the order as own entries first, then profile-only entries in profile order.
- The model filters profile entries only against the own mappings. A field repeated inside the profile itself stays repeated. `MergeKeepsUniqueFieldNames` covers inputs without repeats.
- The React rendering of the query input, the explanation message/type fields, and the other web-interface files (modal submit, chart data, date-time provider) are not modelled: they carry no logic that takes part here.
- The content-pack entity converter and the integrations audit event type registry hold no behaviour, so they are not modelled.
