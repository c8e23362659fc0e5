# Verified model of the IBM Application Gateway operator

This project models the two cores of the operator's `internal/controller` package in Dafny and
proves what they promise.

**The configuration merge engine.** `Trees` is the value a YAML document parses to, with the tag
that tells a mapping fresh from the parser (`map[interface{}]interface{}`, keys of any scalar kind)
from one that has been merged (`map[string]interface{}`); the results depend on that tag.
`PlainMerge` is a merge without tags, with sequences joined in the operator's order, and the proof
that the operator's merge of two documents refines it. `SourceFold` follows one key of the master
through any number of sources and says exactly when the result is the plain merge of all of them,
and when sequences come in the order that the documentation shows (with `ListOrder`);
`FoldExamples` has concrete lists for which they do not. `OidcOverlay` is the final OIDC step.
`AnyOrder` says what merge and normalisation can yield when Go visits maps in any order and keys of
one mapping print alike, and that they yield one thing when keys print apart; `PossibleBuilds` is
the same for whole drivers. `Printing` and `ConfigTexts` are the step from a master to the text
that is written. `GoHeap`, `MergeEngine`, `Normalizer`, `Unmarshal` and `Operator` are the code
over shared mutable maps and slices, for any keys and any order, and are proved against those
specifications; every object carries the tree it stands for as a ghost field. `Registration` is
dynamic client registration, `Drivers` what the two drivers (`getMergedConfig`, `mergeIAGConfig`)
compute from a list of sources.

**Two state machines over the cluster.** `ConfigElements`, `ConfigParser`, `ConfigEncoding` and
`ConfigOrder` are the webhook's annotation parser, the documented naming scheme it reads, and the
order in which the sources are merged. `Json` and `Patching` are the JSON Patch operations of RFC
6902 and the patches the webhook answers with. `Admission` says what create, update and delete of a
pod or deployment mean for the services, config maps and objects of a namespace; `Webhook` is the
code that does it, step by step on mutable maps, and is proved to be that model. `SidecarLedger`
and `SidecarSafety` are properties of whole runs of such requests, `SidecarConfig` ties the config
map of a sidecar to the merge engine, and `SidecarExamples` has a concrete sidecar and the requests
that break something. `SidecarContents` says what an admitted sidecar runs, `SidecarPorts` that it
has a service exactly if it asks for a port, `ConfigRefusals` and `ConfigReading` what the parser
refuses and reads, `PassDetails` what one reconcile writes and leaves alone, `SourceReading` which
texts a source adds, `JsonExamples` the examples of RFC 6902. `Reconciling` is the reconcile loop
of the custom resource, and the proof of when it settles; `GatewayConfig` puts the merge engine
into it.

API errors, generated names, the replies of the OIDC provider, the texts behind web sources, the
YAML parser, the printers and which URLs parse are parameters: a theorem holds for all of their
values unless it names the ones it needs. The code is modelled for any keys; theorems that need
distinct keys of the documents to print apart say so (`Unambiguous`), and
`AmbiguousKeysBreakRefinement` and `RenderingIsUniqueIff` show what happens otherwise.

Where the code and its documentation or evident intent disagree the model follows the code:

- unequal sequences are joined newer first (controller lines 773-787), while README.md:818-832
  shows the earlier sources in list order after the last one;
- a provider of another kind is kept by the OIDC step when the identity comes from a single
  source, while README.md:579 says it is removed;
- a third mapping at a top-level key replaces what was merged from the first two, although the
  sources are said to be merged with the previously defined configuration (README.md:809);
- a secret without data, which is the documented way to register without authorization
  (README.md:272), makes the operator register a client and then panic on entering it, so every
  attempt registers another one;
- a URL that Go cannot parse, such as one that ends in the newline of a block scalar, is not an
  error: the request is nil, and its first use panics;
- a custom resource must name the data key of a config map source, the webhook reads a missing
  one as an empty document;
- the webhook prints through JSON and so rejects a configuration with a mapping inside directly
  nested sequences, or an infinite number, that the custom resource writes out;
- a failing read of the labelled config map is taken for a missing one: another config map is
  made, and its version is written into the template although it is not mounted;
- an update of a sidecar whose stored object cannot be read is admitted without validation and
  without a patch;
- an update of the sidecar's configuration alone records a new config map but emits no patch for
  the volume, which goes on naming the deleted one;
- an annotation of a sidecar that is empty counts as changed by every update;
- the values of a POST data entry are gathered from all sources, not only from its own;
- an update that fails after its service step leaves the service exchanged or removed;
- running the patch of an update again can reorder the container's environment;
- the LANG variable is rewritten only together with something else that is compared, and a
  deployment that has no annotations yet cannot have its template changed.

`dafny verify dfyconfig.toml` checks the whole project.

## Model

| member | source | states |
|---|---|---|
| PlainMerge.MergeRefinesPlain | internal/controller/ibmapplicationgateway_controller.go:674-802 | Two parsed documents merged in turn into an empty master and then normalised are the plain recursive merge of the two normalised documents: union of keys, mappings recursed, equal values kept, unequal sequences joined newer first, otherwise the newer wins. |
| PlainMerge.PlainMergeAtPath | internal/controller/ibmapplicationgateway_controller.go:753-802 | What that plain merge leaves at every path: what only one side has is kept unless the other shadows it, what both have is merged there. |
| PlainMerge.LastScalarWinsAndNoEntryIsLost | internal/controller/ibmapplicationgateway_controller.go:753-802 | The last source to set a scalar decides it; a joined sequence holds exactly the entries of both. |
| PlainMerge.AmbiguousKeysBreakRefinement | internal/controller/ibmapplicationgateway_controller.go:656-667 | The refinement needs keys that print apart: a concrete pair (keys `1` and `"1"`) for which merging before normalising differs from merging after it. |
| PlainMerge.NewerStandsAloneIff | internal/controller/ibmapplicationgateway_controller.go:753-802 | The plain merge yields the newer value unchanged exactly if at no path anything of the older one is lost by that: a field only it has, or an unequal sequence to be joined. |
| Drivers.BuiltConfigIsPlainIff | internal/controller/ibmapplicationgateway_controller.go:341-452 | Without an OIDC source, and if no document before the last loses anything, what either driver writes out (if the webhook can print it) is the plain merge of all documents exactly if the last one loses nothing. |
| Drivers.BuiltConfigIsPlain | internal/controller/ibmapplicationgateway_controller.go:341-452 | With or without an OIDC source: if no document loses anything, every top-level key but `identity` is written out as in the plain merge. |
| SourceFold.FoldLaw | internal/controller/ibmapplicationgateway_controller.go:341-397 | Over any number of sources each top-level key of the master is exactly what its own machine (absent, scalar, list, mapping of source i, mappings of i and j merged) says. |
| SourceFold.AtMostTwoSources | internal/controller/ibmapplicationgateway_controller.go:753-802 | A top-level mapping of the master comes from at most two sources. |
| SourceFold.SuccessiveMappings | internal/controller/ibmapplicationgateway_controller.go:760-766 | After k successive mappings with unequal neighbours the key holds the last one alone (k odd) or the merge of the last two (k even). |
| SourceFold.SequencesJoinNewestFirst | internal/controller/ibmapplicationgateway_controller.go:773-787 | Sequences are joined newest first, back to the last source that set the key to something else; sources that do not set it are passed over. |
| SourceFold.DocumentedOrderIff | internal/controller/ibmapplicationgateway_controller.go:773-787 | Where the sources before the last one start with different entries, the key holds them in the order that the documentation shows (README.md:818-832: the last source, then the others in list order) exactly if at most one of the others lists any. |
| FoldExamples.DocumentedOrderDiffers | README.md:803-832 | The documented example: the entries come out as last, second, first, and not as last, first, second. |
| SourceFold.StepIsPlainIff | internal/controller/ibmapplicationgateway_controller.go:633-651 | A list merged to its plain merge still is after one more source exactly if that source loses nothing at any key: no mapping arrives at a merged key where something held would be kept by the plain merge. |
| SourceFold.PlainThroughoutIff | internal/controller/ibmapplicationgateway_controller.go:341-397 | Any list is merged to the plain merge of its sources, up to each of its members, exactly if none of them loses anything. |
| SourceFold.FoldIsPlainIff | internal/controller/ibmapplicationgateway_controller.go:341-397 | If no earlier source loses anything, the whole list is merged to its plain merge exactly if the last one does not either. |
| SourceFold.ThirdMappingDropsTheRest | internal/controller/ibmapplicationgateway_controller.go:760-766 | When a third mapping arrives, everything held at that key is dropped; every field that the newest mapping does not mention would be kept by the plain merge. |
| FoldExamples.ThirdMappingExample | internal/controller/ibmapplicationgateway_controller.go:760-766 | Three documents with one field each below the same key: only the last field is left, so the result is not the plain merge. |
| SourceFold.MasterIsShaped | internal/controller/ibmapplicationgateway_controller.go:633-667 | In every master, string-keyed maps are closed upwards to the root. |
| OidcOverlay.ReachableMasterIsShaped | internal/controller/ibmapplicationgateway_controller.go:485-529 | The same after the OIDC step. |
| MergeEngine.MergeMapsRecursive | internal/controller/ibmapplicationgateway_controller.go:753-802 | The in-place merge, for any keys and every iteration order: the first map ends as one of the possible merges (the only one where keys print apart), and it is the only object written to. |
| MergeEngine.MergeKey | internal/controller/ibmapplicationgateway_controller.go:755-797 | One key of the merge, with the type switch and the equality test, for any keys. |
| MergeEngine.JoinSlices | internal/controller/ibmapplicationgateway_controller.go:773-787 | A new slice: newer elements, then older ones; neither input slice changes. |
| MergeEngine.ConvertInterfaceKeysToString | internal/controller/ibmapplicationgateway_controller.go:656-667 | The copy under printed keys: for every iteration order one of the values of each printed key. |
| AnyOrder.RenderingIsUniqueIff | internal/controller/ibmapplicationgateway_controller.go:656-667 | That copy is the same for every iteration order exactly when keys that print alike hold equal values. |
| AnyOrder.MergeIsDetermined | internal/controller/ibmapplicationgateway_controller.go:753-802 | Where keys print apart, the possible merges are one: the merge of `Trees`. |
| AnyOrder.MergeIsPossible | internal/controller/ibmapplicationgateway_controller.go:753-802 | For any keys at all, the merge of `Trees` is one of the possible ones. |
| GoHeap.DeepEqual | internal/controller/ibmapplicationgateway_controller.go:760-787 | Structural equality over shared objects is equality of the trees they stand for. |
| GoHeap.Marshals | internal/controller/ibmapplicationgateway_webhook.go:466-471 | Whether a tree of objects can be printed through JSON: exactly if it holds no interface-keyed map and no infinite number. |
| Normalizer.ValidateStringKeysFromString | internal/controller/ibmapplicationgateway_controller.go:674-708 | The key normalisation builds one of the possible normalised trees in new objects and leaves the master alone, for any keys. |
| Normalizer.ValidateStringKeysFromInterface | internal/controller/ibmapplicationgateway_controller.go:715-747 | The same for an interface-keyed map. |
| Normalizer.NormalizeElements | internal/controller/ibmapplicationgateway_controller.go:686-702 | Mappings directly in a sequence are normalised, everything else in it is shared as it is, for any keys. |
| AnyOrder.NormalizeIsDetermined | internal/controller/ibmapplicationgateway_controller.go:674-747 | Where keys print apart, the possible normalised trees are one: that of `Trees`. |
| AnyOrder.AnyNormalizedIsNormal | internal/controller/ibmapplicationgateway_controller.go:674-747 | Whatever the keys and the order, a possible normalised tree is normal. |
| Trees.NormalizeNormal | internal/controller/ibmapplicationgateway_controller.go:674-747 | Normalisation leaves no interface-keyed map except below a sequence that is a direct element of a sequence. |
| Trees.NormalIffFixed | internal/controller/ibmapplicationgateway_controller.go:674-747 | Such trees are exactly the ones that normalisation leaves alone. |
| Trees.NormalizeIdempotent | internal/controller/ibmapplicationgateway_controller.go:674-747 | Normalising twice is normalising once. |
| Trees.NormalizeInjective | internal/controller/ibmapplicationgateway_controller.go:674-747 | On parsed trees with keys that print apart, normalisation identifies nothing. |
| Printing.DocRefusedIff | internal/controller/ibmapplicationgateway_webhook.go:466-471 | After normalisation the webhook's printer refuses a configuration exactly if, before, a sequence directly inside a sequence contained a mapping, or there was an infinite number. |
| Operator.NestedMappingIsRejected | internal/controller/ibmapplicationgateway_webhook.go:466-471 | A config map with the document `a: [[{b: 1}]]` is written out for a custom resource and rejected by the webhook. |
| OidcOverlay.OverlayTouchesOnlyIdentity | internal/controller/ibmapplicationgateway_controller.go:475-534 | The OIDC step leaves every top-level key but `identity` unchanged. |
| OidcOverlay.OverlaidIdentity | internal/controller/ibmapplicationgateway_controller.go:480-529 | What it leaves at `identity`, in each of its three cases. |
| OidcOverlay.OidcFieldsLaw | internal/controller/ibmapplicationgateway_controller.go:480-529 | `identity.oidc` holds the three client settings; any other of its fields survives exactly when `identity` and `identity.oidc` are both mappings that have not been merged. |
| OidcOverlay.SiblingProvidersLaw | internal/controller/ibmapplicationgateway_controller.go:481-529 | A sibling provider survives exactly when `identity` is a mapping that has not been merged; a merged identity is replaced whole. |
| OidcOverlay.OtherProviderSurvives | README.md:578-579 | The documentation says a provider of another kind is removed; the code keeps it when the identity comes from a single source. |
| SourceReading.ClientIsWritten | internal/controller/ibmapplicationgateway_controller.go:472-529 | A list with one OIDC source writes its discovery endpoint and the references `secret:<name>/client_id` and `secret:<name>/client_secret` under `identity.oidc`. |
| SourceReading.SecretIsFilled | internal/controller/ibmapplicationgateway_controller.go:1348-1404 | After a merge that succeeds the secret of the source, and no other, holds a client: the one it held, or the one just handed out. |
| SourceReading.RecordedThoughMergeFails | internal/controller/ibmapplicationgateway_controller.go:465-529 | A client that was registered stays recorded if the merge fails after that. |
| SourceReading.SnippetText | internal/controller/ibmapplicationgateway_controller.go:519-524 | The text that is parsed where the client is not written into the tree directly. |
| SourceReading.LastOidcCounts | internal/controller/ibmapplicationgateway_webhook.go:439-462 | The webhook's driver uses the last OIDC source. |
| Operator.Builder.HandleOidcEntryMerge | internal/controller/ibmapplicationgateway_controller.go:457-534 | The OIDC step on the mutable master: error cases, registration, its panic, update in place of an unmerged identity, otherwise the parsed snippet is merged. |
| Registration.OidcClient.HandleOidcRegistration | internal/controller/ibmapplicationgateway_controller.go:1322-1413 | The requests sent and the end of one registration attempt (the data of the secret, an error, or the panic on a secret without data or at a URL that does not parse), for every reply of the provider. |
| Registration.OnlyClientFieldsChange | internal/controller/ibmapplicationgateway_controller.go:1397-1404 | The secret changes only by an accepted and written registration, never when it has no data, and only in its two client fields. |
| Registration.ClientIsRecorded | internal/controller/ibmapplicationgateway_controller.go:1397-1404 | What is recorded is the id under `client_id` and the secret under `client_secret` that the provider handed out. |
| Registration.UsedAsItIsIff | internal/controller/ibmapplicationgateway_controller.go:1335-1348 | A secret is used as it is exactly if both fields have a value. |
| Registration.RegistrationExample | internal/controller/ibmapplicationgateway_controller.go:1348-1404 | One concrete attempt, with its requests and the secret afterwards. |
| Registration.RequestsGoTo | internal/controller/ibmapplicationgateway_controller.go:1156-1303 | Discovery goes to the configured endpoint; token and registration requests go to those that were discovered, the registration with the POST data. |
| Registration.RequestsInOrder | internal/controller/ibmapplicationgateway_controller.go:1348-1388 | Discovery first, then at most one request for a token, then at most one registration. |
| Registration.RegistrationIsSentIff | internal/controller/ibmapplicationgateway_controller.go:1348-1388 | Exactly when a registration is sent; a token that cannot be had does not keep it back. |
| Registration.BodyLaw | internal/controller/ibmapplicationgateway_controller.go:1266-1296 | The registration body holds the last entry of every name, with its single value or else its values; exactly if an entry lacks a name or both there is none. |
| Registration.CredentialsLaw | internal/controller/ibmapplicationgateway_controller.go:1362-1387 | Basic authentication exactly if user and password are there; a token is asked for exactly if neither they nor an initial token are, and the provider has an endpoint for it. |
| Registration.AuthorizationPrecedence | internal/controller/ibmapplicationgateway_controller.go:1362-1387 | Registration requests carry basic authentication, else the initial token, else a retrieved token, else nothing; a token is asked for only when neither of the first two is there. |
| Registration.PanicsIff | internal/controller/ibmapplicationgateway_controller.go:1397-1459 | An attempt panics exactly when the provider accepts a registration for a secret without data, or the attempt gets as far as a discovery, token or registration URL that does not parse; in the second case nothing has been registered. |
| Registration.TrailingNewlinePanics | internal/controller/ibmapplicationgateway_controller.go:1452-1459 | A concrete input of the second kind: a discovery endpoint that ends in a newline. |
| Registration.RegistrationsBalance | internal/controller/ibmapplicationgateway_controller.go:1348-1404 | Over any run every accepted registration is accounted for: it is recorded, an administrator cleared it, or it was lost to a failed write or a panic; equality, not a bound. |
| Registration.RegistersOnceIff | internal/controller/ibmapplicationgateway_controller.go:1348-1404 | From a secret that only attempts fill in, a client is registered at most once more often than the secret was cleared or a write failed, exactly if no registration was accepted for a secret without data. |
| Registration.EmptySecretRegistersAgain | internal/controller/ibmapplicationgateway_controller.go:1397-1404 | For every n, n accepted attempts on a secret without data register n clients and record none. |
| Registration.AnonymousRegistrationPanics | README.md:264-272 | A concrete attempt of that kind: the documented registration without authorization. |
| Registration.StaysRegistered | internal/controller/ibmapplicationgateway_controller.go:1348-1407 | Once registered, no number of attempts calls the provider or changes the secret. |
| Operator.Builder.HandleYamlDataMerge | internal/controller/ibmapplicationgateway_controller.go:633-651 | A parse error leaves the master alone; otherwise the parsed document is merged into it, for any keys. |
| SourceReading.ConfigMapIsRead | internal/controller/ibmapplicationgateway_controller.go:350-375 | A config map source adds the document that is under its data key in the config map of its name. |
| SourceReading.MissingConfigMap | internal/controller/ibmapplicationgateway_controller.go:361-373 | A config map that is not there is an error, a data key that is not there reads as the empty text. |
| SourceReading.LiteralIsRead | internal/controller/ibmapplicationgateway_controller.go:343-348 | A literal source adds its value, in the custom resource; the webhook has no literals. |
| SourceReading.UnknownKindIsIgnored | internal/controller/ibmapplicationgateway_controller.go:341-408 | A source of an unknown type is passed over without an error. |
| SourceReading.WebIsRead | internal/controller/ibmapplicationgateway_controller.go:540-619 | A web source adds the text that is answered to its URL and to the pairs of header names and values, literal or from a secret, in their order. |
| SourceReading.UnsendableHeaderFails | internal/controller/ibmapplicationgateway_controller.go:554-592 | One header without a name or value, of an unknown type, or whose secret or key is missing keeps the source from being read. |
| SourceReading.MergedInOrder | internal/controller/ibmapplicationgateway_controller.go:341-397 | The documents are merged in the order of the list. |
| Operator.Builder.FetchWeb | internal/controller/ibmapplicationgateway_controller.go:540-619 | Headers are entered one by one and the text is fetched; errors of headers, panics and failures of the request come in the order of the code. |
| Drivers.FetchPanicsIff | internal/controller/ibmapplicationgateway_controller.go:551-596 | Fetching a web source panics exactly if its URL does not parse, unless there are headers and the first of them is reported as an error before the request is touched. |
| Drivers.BadWebUrlPanics | internal/controller/ibmapplicationgateway_controller.go:551-596 | A concrete web source, with a URL that ends in a newline, that ends either driver in a panic. |
| Operator.Builder.GetMergedConfig | internal/controller/ibmapplicationgateway_controller.go:332-452 | The custom resource's driver on the mutable master: configuration, secrets and provider calls are one of the possible outcomes, errors and panics included, for any keys. |
| Operator.Builder.MergeIAGConfig | internal/controller/ibmapplicationgateway_webhook.go:414-471 | The webhook's driver does the same for its own rules, and fails if the normalised configuration cannot be printed through JSON. |
| PossibleBuilds.BuildIsDetermined | internal/controller/ibmapplicationgateway_controller.go:332-452 | Where the keys of the parsed documents print apart, the possible outcomes of either driver are one. |
| Operator.WrittenConfigIsDetermined | internal/controller/ibmapplicationgateway_controller.go:443-452 | Where keys print apart, either driver writes out the normalised configuration that the theorems about `MasterOf` speak of, exactly if there is one and, in the webhook, it can be printed. |
| ConfigTexts.TextIsDetermined | internal/controller/ibmapplicationgateway_controller.go:443-452 | Where keys print apart, there is one text that a driver can end with. |
| ConfigTexts.ConfigIgnoresSecrets | internal/controller/ibmapplicationgateway_controller.go:472-529 | Whatever the secrets and the replies of the provider, a merge of the same sources that succeeds yields the same configuration. |
| Drivers.OidcPositionIsIrrelevant | internal/controller/ibmapplicationgateway_controller.go:398-441 | Moving the single OIDC source anywhere in the list changes nothing. |
| Drivers.SecondOidcFails | internal/controller/ibmapplicationgateway_controller.go:401-404 | Two or more OIDC sources always end the merge of a custom resource without a call and without a changed secret: in a panic exactly if a source before the second one panics, otherwise in an error. |
| Drivers.NoRegistrationBeforeMerge | internal/controller/ibmapplicationgateway_controller.go:341-441 | No provider is called and no secret changes unless every other source was merged. |
| Drivers.DriversAgreeIff | internal/controller/ibmapplicationgateway_webhook.go:424-488 | On the same list the two drivers build the same master exactly if every config map source names its data key, or a panic comes before the first that does not, or the webhook fails with an error as well; where they differ the custom resource reports an error. |
| Drivers.MissingKeyDiffers | internal/controller/ibmapplicationgateway_controller.go:353-358 | A concrete list on which they differ: one config map source without a data key. |
| ConfigParser.GetConfigElements | internal/controller/ibmapplicationgateway_webhook.go:218-393 | For every iteration order: the annotations are accepted exactly when they are valid, and the result lists exactly the sources they describe. |
| ConfigParser.ParseElement | internal/controller/ibmapplicationgateway_webhook.go:289-380 | One named source: accepted exactly when its type, order and header types are valid, and then read as described. |
| ConfigParser.BuildIndex | internal/controller/ibmapplicationgateway_webhook.go:222-287 | One pass over the annotations gathers exactly the names and values that occur. |
| ConfigRefusals.AcceptedAreSidecarLists | internal/controller/ibmapplicationgateway_webhook.go:289-393 | An accepted list has config map, web and OIDC sources only, at least one source and at most one OIDC source: what the webhook's driver needs. |
| ConfigRefusals.UnknownTypeIsRefused | internal/controller/ibmapplicationgateway_webhook.go:380-382 | Annotations with a source of an unknown type are refused. |
| ConfigRefusals.MissingTypeIsRefused | internal/controller/ibmapplicationgateway_webhook.go:293-382 | So are those with a source without a type. |
| ConfigRefusals.BadOrderIsRefused | internal/controller/ibmapplicationgateway_webhook.go:294-297 | So are those with an order that is no number. |
| ConfigRefusals.UnknownHeaderTypeIsRefused | internal/controller/ibmapplicationgateway_webhook.go:360-364 | So are those with a header of an unknown type in a web source. |
| ConfigRefusals.SecondOidcIsRefused | internal/controller/ibmapplicationgateway_webhook.go:307-310 | So are those with a second OIDC source. |
| ConfigRefusals.NoSourceIsRefused | internal/controller/ibmapplicationgateway_webhook.go:388-391 | So are those without any source. |
| ConfigRefusals.AtoiIff | internal/controller/ibmapplicationgateway_webhook.go:294 | An order is a number exactly if it is digits, perhaps after a sign, and fits into 64 bits. |
| ConfigReading.SourceIsRead | internal/controller/ibmapplicationgateway_webhook.go:293-352 | Each field of a source is the annotation of its own name. |
| ConfigReading.HeadersAreRead | internal/controller/ibmapplicationgateway_webhook.go:348-376 | The headers of a web source are exactly those with a type under its name, each with the four annotations of its name. |
| ConfigReading.PostsAreRead | internal/controller/ibmapplicationgateway_webhook.go:316-341 | Each POST data entry has the name and value of one entry of the source. |
| ConfigReading.ValuesOfAnySource | internal/controller/ibmapplicationgateway_webhook.go:262-283 | The values of an entry are gathered from all sources that use its key. |
| ConfigEncoding.ParserInvertsEncoding | internal/controller/ibmapplicationgateway_webhook.go:218-393 | Writing a well-formed list of sources under the documented names and parsing it yields that list, up to the order of sources, headers, POST data and values. |
| ConfigOrder.ParsesMatch | internal/controller/ibmapplicationgateway_webhook.go:289-393 | Two parses of the same annotations are permutations of each other. |
| ConfigOrder.MergeOrderIsUnique | internal/controller/ibmapplicationgateway_webhook.go:398-409 | With distinct order values the sorted sequence handed to the merge is the same for every iteration order, each source up to header and POST data order. |
| ConfigOrder.SortIsStable | internal/controller/ibmapplicationgateway_webhook.go:402-405 | The sort orders by the order value and keeps sources of equal value in their order. |
| Patching.AddIAGContainer | internal/controller/ibmapplicationgateway_webhook.go:647-837 | The operations emitted for volume and container, with every environment annotation listed once. |
| SidecarContents.ContainerLaw | internal/controller/ibmapplicationgateway_webhook.go:752-771 | The container runs the image of the annotation under the pull policy, with port 80, the mount of the webhook's volume and one variable per environment entry. |
| SidecarContents.PullPolicyLaw | internal/controller/ibmapplicationgateway_webhook.go:657-671 | The pull policy is `Never` or `Always` exactly if the annotation spells that in any case, otherwise `IfNotPresent`. |
| SidecarContents.VariablesAreThose | internal/controller/ibmapplicationgateway_webhook.go:735-746 | The variables are exactly the environment annotations without their prefix. |
| SidecarContents.AppNames | internal/controller/ibmapplicationgateway_webhook.go:581-589 | The name of the container, for a pod and for a deployment. |
| Patching.ListPatchApplies | internal/controller/ibmapplicationgateway_webhook.go:672-726 | Each emitted operation applies under sections 4.1 and 4.3 of RFC 6902: on update the first item of the name is replaced in place, otherwise the item is appended or the list created. |
| Patching.PatchesApply | internal/controller/ibmapplicationgateway_webhook.go:672-834 | Applied in sequence the operations succeed on every object that decodes, and change the two lists and nothing else. |
| Patching.UpdateIsIdempotentIff | internal/controller/ibmapplicationgateway_webhook.go:686-815 | Running the update again on its own result changes nothing exactly if the environment annotations are visited in the same order; otherwise the second run permutes `env` of the container and changes nothing else. |
| Patching.OneOrder | internal/controller/ibmapplicationgateway_webhook.go:735-746 | With at most one environment annotation there is only one order. |
| Patching.TwoOrders | internal/controller/ibmapplicationgateway_webhook.go:735-746 | With two of them both orders occur. |
| Patching.AddAnnotations | internal/controller/ibmapplicationgateway_webhook.go:842-868 | New annotation values are written, empty ones delete their key; a nil map is added, any other replaced. |
| SidecarContents.AnnotatedAt | internal/controller/ibmapplicationgateway_webhook.go:853-859 | Key by key: given values are written, empty ones delete, other annotations stay. |
| Patching.AnnotationPatchApplies | internal/controller/ibmapplicationgateway_webhook.go:846-865 | The annotation operation succeeds and changes the annotations alone. |
| Webhook.CreatePatchesApply | internal/controller/ibmapplicationgateway_webhook.go:906-925 | The whole answer to a create, applied in order, yields the object with volume, container and both annotations. |
| Webhook.UpdatePatchesApply | internal/controller/ibmapplicationgateway_webhook.go:979-1001 | The same for an update, whichever of its parts are due. |
| SidecarContents.AnnotationIsRead | internal/controller/ibmapplicationgateway_webhook.go:107-134 | An annotation is read where it stands in the object. |
| SidecarContents.WhatDecodes | internal/controller/ibmapplicationgateway_webhook.go:1090-1100 | Absent and null lists and annotations are empty; of another kind they are rejected. |
| Webhook.CompareAnnotations | internal/controller/ibmapplicationgateway_webhook.go:113-192 | For every iteration order: the reported keys are exactly the compared keys that changed, and a mutation is required exactly if a sidecar annotation remains or an important one changed. |
| SidecarContents.ReportedIff | internal/controller/ibmapplicationgateway_webhook.go:142-189 | A key is reported exactly if it is the sidecar's, no environment key of a pod, and its value differs or is empty before and after. |
| SidecarContents.EnvironmentIsReported | internal/controller/ibmapplicationgateway_webhook.go:148-172 | A changed variable is reported for a deployment and not for a pod. |
| SidecarContents.LastAnnotationsGo | internal/controller/ibmapplicationgateway_webhook.go:112-189 | When the last sidecar annotation goes, a mutation is called for exactly if one with the image, the port, a source or, in a deployment, a variable had a value. |
| Webhook.Cluster.MutationRequired | internal/controller/ibmapplicationgateway_webhook.go:93-193 | Ignored namespaces and updates of objects that cannot be read require nothing; otherwise the comparison, or any sidecar annotation, decides. |
| Webhook.FlagsOf | internal/controller/ibmapplicationgateway_webhook.go:944-957 | The three switches of an update, from the reported keys. |
| SidecarContents.OneKeyFlags | internal/controller/ibmapplicationgateway_webhook.go:944-957 | What one reported key calls for. |
| SidecarContents.FlagsAreJoined | internal/controller/ibmapplicationgateway_webhook.go:944-957 | Several keys call for what each of them does. |
| Webhook.Cluster.CreateObjects | internal/controller/ibmapplicationgateway_webhook.go:873-926 | What a create does to services and config maps, failures, panic and clean-up included, and the patch it answers with. |
| Webhook.Cluster.UpdateObjects | internal/controller/ibmapplicationgateway_webhook.go:931-1002 | What an update does to them, including the failure after the service step, and its patch. |
| Webhook.Cluster.UpdateIAGService | internal/controller/ibmapplicationgateway_webhook.go:540-563 | A new service if a port is given; the old one is deleted either way. |
| Webhook.Cluster.CreateIAGConfig | internal/controller/ibmapplicationgateway_webhook.go:473-488 | The sources are sorted and merged; the new config map is made before the old one is deleted, and nothing changes if the merge fails or panics or the creation fails. |
| Webhook.Cluster.MutateDeleteCommon | internal/controller/ibmapplicationgateway_webhook.go:1402-1415 | A delete removes the service and config map that the annotations name. |
| Webhook.Cluster.ServeCreate | internal/controller/ibmapplicationgateway_webhook.go:1086-1195 | A create request from decoding to the stored object is one step of the admission model. |
| Webhook.Cluster.ServeUpdate | internal/controller/ibmapplicationgateway_webhook.go:1219-1316 | The same for an update request, whether or not the stored object can be read. |
| Webhook.Cluster.ServeDelete | internal/controller/ibmapplicationgateway_webhook.go:1340-1415 | The same for a delete request. |
| SidecarContents.CreatedRunsGateway | internal/controller/ibmapplicationgateway_webhook.go:873-926 | After an admitted create the object has its own containers and volumes, behind them the gateway its annotations ask for and the volume of the recorded config map, and nothing else of its specification differs. |
| SidecarContents.UpdatedRunsGateway | internal/controller/ibmapplicationgateway_webhook.go:979-1001 | After an admitted update with a changed image or environment the first container of the gateway's name is the one its annotations ask for; after any other the specification is the one that was sent. |
| SidecarContents.DeploymentGetsVariables | internal/controller/ibmapplicationgateway_webhook.go:148-186 | An admitted update of a deployment that changes only variables gives them to the gateway and touches no service or config map. |
| SidecarContents.PodKeepsVariables | internal/controller/ibmapplicationgateway_webhook.go:148-172 | The same update of a pod is stored as it was sent. |
| SidecarContents.CreatedIsConfigured | internal/controller/ibmapplicationgateway_webhook.go:198-213 | A created sidecar has an image and sources that the parser accepts. |
| SidecarContents.UpdatedIsConfigured | internal/controller/ibmapplicationgateway_webhook.go:198-213 | So does one that a mutating update leaves. |
| SidecarContents.CreateLeftAlone | internal/controller/ibmapplicationgateway_webhook.go:1086-1130 | Objects without a name, in ignored namespaces or without sidecar annotations are stored as they are, with nothing made for them. |
| SidecarContents.UpdateLeftAlone | internal/controller/ibmapplicationgateway_webhook.go:93-140 | So are updates in ignored namespaces, of objects that cannot be read, and without sidecar annotations or changes that matter. |
| SidecarContents.DeleteLaw | internal/controller/ibmapplicationgateway_webhook.go:1402-1415 | A delete removes the object and, outside ignored namespaces, what its two name annotations name. |
| SidecarLedger.CreateIsAccounted | internal/controller/ibmapplicationgateway_webhook.go:873-926 | A create, accepted or rejected, keeps the account (every live object names its own live service and config map, and no other sidecar resource exists) exactly if its merge does not panic after a service was made. |
| SidecarLedger.UpdateIsAccounted | internal/controller/ibmapplicationgateway_webhook.go:931-1002 | An update keeps the account exactly if it does not fail after a service step that created or deleted something. |
| SidecarLedger.DeleteIsAccounted | internal/controller/ibmapplicationgateway_webhook.go:1402-1415 | Every delete keeps the account. |
| SidecarLedger.RunIsAccountedIff | internal/controller/ibmapplicationgateway_webhook.go:414-563 | Over any fair run the account is kept all the time exactly if no request is such a create or update. |
| SidecarLedger.NothingLeftBehind | internal/controller/ibmapplicationgateway_webhook.go:1402-1415 | When every object is gone, no sidecar service or config map is left. |
| SidecarPorts.RunInStepIff | internal/controller/ibmapplicationgateway_webhook.go:540-563 | Over any fair run every named object records a service exactly if it asks for a port, all the time, exactly if no update sets or takes away a port while the stored object cannot be read. |
| SidecarConfig.CreateRecordsMerge | internal/controller/ibmapplicationgateway_webhook.go:398-489 | After an admitted create the recorded config map holds a text that the webhook's driver can end with (the only one where keys print apart) on the sources that the annotations describe, sorted by their order. |
| SidecarConfig.UpdateRecordsMerge | internal/controller/ibmapplicationgateway_webhook.go:398-489 | So it does after an admitted update that reports a changed configuration. |
| SidecarConfig.HeldTextIsDetermined | internal/controller/ibmapplicationgateway_webhook.go:464-471 | Where keys print apart, that text is the print of the normalised merge. |
| SidecarSafety.ImageIsGuarded | internal/controller/ibmapplicationgateway_webhook.go:142-163 | Taking the image annotation away always calls for a mutation, and so for validation. |
| SidecarSafety.NewConfigIsReported | internal/controller/ibmapplicationgateway_webhook.go:166-188 | Configuration annotations added to an object without any are reported, for pods as well. |
| SidecarSafety.UpdateOfSidecarIsValidIff | internal/controller/ibmapplicationgateway_webhook.go:137-213 | An object with an image comes out of an admitted update with an image and acceptable sources exactly if the stored object could be read or the incoming annotations happen to be valid. |
| SidecarSafety.StaysValidIff | internal/controller/ibmapplicationgateway_webhook.go:113-213 | Over any run a valid sidecar stays valid until it is deleted exactly if no update brings invalid annotations while the stored object cannot be read. |
| SidecarExamples.UncheckedUpdateLosesImage | internal/controller/ibmapplicationgateway_webhook.go:137-140 | A concrete update of that kind: it is admitted and takes the image away. |
| SidecarSafety.RunIsCompleteIff | internal/controller/ibmapplicationgateway_webhook.go:873-1002 | Over any fair run every named sidecar is valid and records a config map all the time exactly if no update breaks one while its stored object cannot be read. |
| SidecarSafety.EverySidecarOwnsItsResources | internal/controller/ibmapplicationgateway_webhook.go:873-1002 | From a namespace without objects and sidecar resources, after any fair run without such an update, every named sidecar is valid, its config map and the service it names live, no other object names them, and nothing else is left of sidecars. |
| SidecarExamples.CreationIsAdmitted | internal/controller/ibmapplicationgateway_webhook.go:873-926 | A concrete sidecar pod created in the empty namespace: where the following examples start. |
| SidecarExamples.UpdateLosesItsService | internal/controller/ibmapplicationgateway_webhook.go:964-977 | A concrete update of two of its annotations that is rejected, replaces its service and leaves the annotation naming the deleted one. |
| SidecarSafety.CreateAgreesIff | internal/controller/ibmapplicationgateway_webhook.go:672-726 | After a create the mounted config map is the recorded one exactly if the object brought no sidecar volume referring to something else. |
| SidecarExamples.ForeignVolumeStays | internal/controller/ibmapplicationgateway_webhook.go:708-726 | A concrete create that goes on mounting the volume it brought. |
| SidecarSafety.UpdateAgreesIff | internal/controller/ibmapplicationgateway_webhook.go:980-998 | An update preserves that agreement exactly if the configuration did not change or the image or environment changed with it. |
| SidecarExamples.ConfigUpdateUnmounts | internal/controller/ibmapplicationgateway_webhook.go:980-998 | A concrete update of one configuration annotation and nothing else: it is admitted, records the new config map and goes on mounting the deleted one. |
| Reconciling.Reconciler.CreateNewConfigMap | internal/controller/ibmapplicationgateway_controller.go:807-868 | The config map part of a reconcile, for every failing call: a labelled config map that cannot be read is replaced by a new one, and one without data panics. |
| Reconciling.Reconciler.UpdateTemplate | internal/controller/ibmapplicationgateway_controller.go:192-267 | Comparison and update of the pod template, with the recorded cause, the nil annotation map and the failing write. |
| Reconciling.Reconciler.Reconcile | internal/controller/ibmapplicationgateway_controller.go:143-273 | One reconcile of an existing custom resource, for every failing call. |
| Reconciling.PassKeeps | internal/controller/ibmapplicationgateway_controller.go:240-253 | No reconcile changes the deployment's config map label, its volume or its other containers; a new deployment mounts the config map of its label. |
| PassDetails.PassKeepsAnnotations | internal/controller/ibmapplicationgateway_controller.go:240-256 | A reconcile keeps every annotation and label of the deployment that it does not write itself. |
| PassDetails.PassKeepsConfigMaps | internal/controller/ibmapplicationgateway_controller.go:839-846 | It keeps the other config maps, and the other keys of the labelled one. |
| PassDetails.NewDataNewVersion | internal/controller/ibmapplicationgateway_controller.go:839-847 | A config map whose data change gets a version that was not given out before. |
| PassDetails.OnlyDoneWrites | internal/controller/ibmapplicationgateway_controller.go:143-273 | A reconcile that does not end as done leaves the deployment alone. |
| PassDetails.ReplicasGoFirst | internal/controller/ibmapplicationgateway_controller.go:178-189 | A reconcile that changes the number of replicas changes nothing else of the deployment. |
| PassDetails.MadeDeployment | internal/controller/ibmapplicationgateway_controller.go:911-1120 | What a new deployment and its config map hold. |
| PassDetails.TemplateIsWritten | internal/controller/ibmapplicationgateway_controller.go:192-267 | A change of the template records its cause and sets version, language, service account, image and environment. |
| PassDetails.CauseLaw | internal/controller/ibmapplicationgateway_controller.go:192-237 | The cause tells the first difference in full and names the others behind it. |
| PassDetails.AgreementLaw | internal/controller/ibmapplicationgateway_controller.go:178-237 | What it means that a cluster agrees with the custom resource. |
| PassDetails.FailuresLaw | internal/controller/ibmapplicationgateway_controller.go:143-273 | How a reconcile ends, and what it has changed, when the merge or a write fails. |
| PassDetails.FailedWrite | internal/controller/ibmapplicationgateway_controller.go:178-267 | A deployment that has to be written and cannot be is reported as a failure. |
| PassDetails.UnreadDeployment | internal/controller/ibmapplicationgateway_controller.go:154-176 | A deployment that cannot be read costs a config map and is tried again. |
| Reconciling.PassHurtsIff | internal/controller/ibmapplicationgateway_controller.go:824-847 | With specification and sources fixed, a reconcile undoes what has settled exactly if it is stray: it could not read the labelled config map and got as far as writing the version of its substitute into the template; no failure takes away that the cluster can settle. |
| Reconciling.FailedReadUnsettles | internal/controller/ibmapplicationgateway_controller.go:825-836 | A concrete settled cluster and one failed read: the template names the version of a config map that is not mounted, and one config map is left behind. |
| Reconciling.CleanPassSettles | internal/controller/ibmapplicationgateway_controller.go:143-273 | A reconcile without failures decreases the mismatch, or is a no-op that asks to be run again if everything agrees. |
| Reconciling.SettlesIff | internal/controller/ibmapplicationgateway_controller.go:143-273 | Two failure-free reconciles after the last stray one leave config map data, version and language labels, service account, image and replicas in agreement, whatever else fails, exactly if the deployment is missing, or its labelled config map exists and is not emptied and the annotations it must write to are not nil. |
| GatewayConfig.GatewaySettlesIff | internal/controller/ibmapplicationgateway_controller.go:143-452 | The same with the merge engine in the loop: two failure-free reconciles after the last stray one leave the text of the normalised merge of the listed sources in the labelled config map, although clients are registered and merges fail meanwhile, exactly if the cluster can settle. |
| GatewayConfig.OneText | internal/controller/ibmapplicationgateway_controller.go:332-452 | Every merge of sources that do not change yields the same text if it succeeds. |
| Reconciling.AtMostTwoChanges | internal/controller/ibmapplicationgateway_controller.go:143-273 | Without failures at most two reconciles change anything, and none once all agrees. |
| Reconciling.EnvIsRightIff | internal/controller/ibmapplicationgateway_controller.go:192-253 | After settling, the LANG variable is right exactly if the deployment was new, had it already, was behind in something that is compared, or was rewritten by a stray reconcile. |
| Reconciling.WrongLanguageStays | internal/controller/ibmapplicationgateway_controller.go:192-253 | A concrete cluster that has settled with a wrong LANG: failure-free reconciles leave it alone. |
| Reconciling.ConfigMapsGrow | internal/controller/ibmapplicationgateway_controller.go:807-868 | Over any run the number of config maps grows by exactly one for every reconcile that found no labelled config map, or could not read it or the deployment, and got its substitute created. |
| Reconciling.LostLabelLeaks | internal/controller/ibmapplicationgateway_controller.go:824-832 | While the labelled config map is missing every failure-free reconcile creates one more config map. |
| Reconciling.NewDeploymentIsStuck | internal/controller/ibmapplicationgateway_controller.go:255-256 | A deployment just made by the operator has nil annotations: until someone adds one, a template change panics. |

## Left out

- Parsing and printing of YAML and JSON: the parser is a function from texts to trees, and printing a function from the trees that can be printed to texts. What else differs between the two printers, and between a nil and an empty slice in them, is not modelled.
- Webhook.Cluster.CreateIAGConfig: takes the merge of a sorted list of sources as a parameter, because the sources are config maps the webhook also writes; `SidecarConfig` instantiates it with the sidecar's driver, with the sources' config maps as they were before the request. The requests and the secret that this merge writes while it registers a client are specified in `Operator` and are not part of the namespace of `Admission`.
- HTTP, TLS, certificate pools and timeouts of web sources and of the OIDC provider: only headers, the choice of authorization, the order of the calls, their URLs and their success are modelled; which URLs parse is a parameter; scopes and the form body of the token request are not.
- NaN scalars, and cyclic structures, which the YAML parser cannot build.
- PlainMerge.MergeRefinesPlain: is stated for keys that print apart, because it is false otherwise (`AmbiguousKeysBreakRefinement`).
- SourceFold.FoldIsPlainIff: says nothing of a list whose earlier sources have already lost something; there a later source can replace or bring back what was lost, and `DocumentedIff` speaks of every prefix instead.
- SourceFold.DocumentedOrderIff: leaves out lists in which two earlier sources start with the same entry, where both orders can give the same sequence by accident.
- Drivers.BuiltConfigIsPlain: says nothing of `identity` when there is an OIDC source; `OverlaidIdentity` does.
- OidcOverlay.OidcFieldsLaw: takes the three client values to be plain scalars of YAML, so that the snippet parses to the mapping it spells out; Drivers.BuiltConfigIsPlain does so too.
- SidecarConfig.UpdateRecordsMerge: needs a generated name other than the recorded one, whose config map is deleted.
- Namespaces are modelled one at a time; that the webhook ignores some is a flag of the namespace. Names of pods and deployments are lower case, as the API server demands, so lowering them again changes nothing.
- Failing deletes of services and config maps, which the webhook only logs, and a failing write of an admitted object by the API server: both leave resources behind.
- SidecarLedger.CreateIsAccounted: assumes that an object is created once, and that users do not bring the operator's two name annotations into an object the webhook does not mutate; SidecarLedger.UpdateIsAccounted assumes that they do not edit them.
- Objects without metadata or pod specification, which the API server refuses anyway, are rejected here.
- Probes, licence annotations, image pull secrets, resource limits and the remaining constants of the created containers; the node port and labels of the service.
- Events, logging and the status of the custom resource beyond whether an error was recorded; a failing status write; errors of setting the owner reference.
- The reaction to a changed config map (it touches the custom resources that name it), watches, leader election, garbage collection by owner reference and manager set-up.
- Reconciling.Reconciler.Reconcile: starts from an existing custom resource, and takes the end of its merge as an answer, which `GatewayConfig` ties to the merge engine; a deployment's replica count, template labels and at least one container exist, as the API server guarantees.
- Reconciling.SettlesIff: leaves out the one other way for a cluster that cannot settle to do so, that the API server generates the very name of the missing config map.
- Generated names and resource versions: a generated name is whatever the API server answers, refused if it is taken; resource versions are decimal numbers of a write counter.
