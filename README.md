# bunny-dns in Dafny

A model of the reconciliation engine of bunny-dns. The engine keeps bunny.net DNS
zones, pull zones and their edge rules in line with a declarative configuration.
Each manager compares the configured records with what the account lists, reports
what it created, updated, left unchanged and deleted, and issues the matching create,
update and delete calls. A dry run issues no call. The DNS and edge rules managers
report in a dry run what a live run reports. The pull-zone manager reports in a dry run
the same hostname additions and removals as a live run on the same zone. Its whole
report agrees only for a listed zone that needs no update. Loaded certificates and the
warnings about failed certificate and Force SSL calls appear only in a live run.

The remote side is never called. Each manager is a method that takes a snapshot of
what the provider lists and replies, and returns its report together with the list of
mutating calls it issued, in order. "Dry run issues nothing" and "the dry-run report
agrees with the live report" are then statements about those two outputs.

| file | module | models |
|---|---|---|
| `wrappers.dfy` | `Wrappers` | `Option`, `Result` and Python truthiness of an optional string |
| `text.dfy` | `Text` | `str.lower`, `str.upper`, `str.strip` and `str(int)` on ASCII text |
| `dicts.dfy` | `Dicts` | Python dictionaries as ordered lists of pairs, with insertion-order update |
| `scan.dfy` | `Scan` | the "first element that satisfies a test" loop shared by several lookups |
| `bunny_client.dfy` | `BunnyClient` | the error hierarchy, `_handle_response`, the `_request` retry loop with exponential backoff, and the verb wrappers |
| `dns_manager.dfy` | `DnsManager` | the record type tables, `DNSRecord` normalisation, `matches`, `needs_update`, the JSON codec, `get_zone_by_domain` and `sync_zone` |
| `edge_rules.dfy` | `EdgeRules` | the action and trigger tables, the rule, trigger and action codec, `parse_*_from_config`, `sync_rules` and `delete_all_rules` |
| `pullzones.dfy` | `PullZones` | the zone type table, the zone and hostname codec, `get_zone_by_name` and `sync_zone` with its hostname phases |
| `sync.dfy` | `Sync` | `_filter_domains`, `sync`, `sync_dns_only` and `sync_pullzones_only` |
| `sync_steps.dfy` | `SyncSteps` | what those syncs invoke, read off their invocation logs |
| `pull.dfy` | `Pull` | `pull`, `_pull_domain` and `_pull_all_domains`, with the hostname-to-domain matching |

## Model

| member | source | states |
|---|---|---|
| BunnyClient.HandleResponse | bunny_client.py:69-118 | succeeds exactly for 200, 201 and 204; 200 and 201 return the parsed body and 204 nothing; every raised error carries the status code and the parsed body, and its kind is the validation, auth, forbidden, not-found or rate-limit error exactly for 400, 401, 403, 404 and 429 |
| BunnyClient.OtherSuccessIsGenericError | bunny_client.py:113-118 | a 2xx status other than 200, 201 and 204 raises the base `BunnyAPIError` |
| BunnyClient.BodyNeverRaises | bunny_client.py:73-82 | an empty or unparseable body on a success status returns nothing instead of raising |
| BunnyClient.RateLimitedIff429 | bunny_client.py:107-112 | the loop's retried error is raised for status 429 and no other |
| BunnyClient.Pow2Add | bunny_client.py:152 | the doubling factor multiplies: `2 ** (a + b) == 2 ** a * 2 ** b`, so each extra attempt doubles the wait |
| BunnyClient.BackoffIsPower | bunny_client.py:152 | the delay slept after attempt `k` is `retry_delay * 2 ** k` |
| BunnyClient.RetryShape | bunny_client.py:141-155 | between 1 and `max_retries + 1` attempts, one sleep fewer than attempts, the `i`-th sleep the backoff of attempt `i` |
| BunnyClient.RetryReply | bunny_client.py:141-155 | the reply is that of the last attempt, every earlier attempt was rate-limited, and a rate-limit reply comes only from attempt `max_retries` |
| BunnyClient.RequestOutcome | bunny_client.py:141-155 | the loop re-raises the 429 exactly when all `max_retries + 1` attempts were throttled, after `max_retries` sleeps; otherwise it returns the first attempt not throttled |
| BunnyClient.NoAttemptsBelowZero | bunny_client.py:141 | with a negative retry limit the range is empty: nothing is sent, nothing slept, `None` returned |
| BunnyClient.BackoffScenario | bunny_client.py:150-153 | two 429s then a 200 with the default policy sleep 1.0 then 2.0 and return the 200's body after three attempts |
| BunnyClient.Client.constructor | bunny_client.py:50-61 | the client keeps the API key and the retry policy it is given, 3 retries and 1.0 second by default |
| BunnyClient.Client.Request | bunny_client.py:120-155 | the loop's reply, sleeps and attempt count are those of the retry function, and every attempt sends the same verb, `BASE_URL + endpoint`, parameters and body |
| BunnyClient.Client.Get | bunny_client.py:157-159 | a GET with the query parameters and no body, retried as `_request` retries |
| BunnyClient.Client.Post | bunny_client.py:161-163 | a POST with the JSON body and no parameters, retried as `_request` retries |
| BunnyClient.Client.Put | bunny_client.py:165-167 | a PUT with the JSON body and no parameters, retried as `_request` retries |
| BunnyClient.Client.Delete | bunny_client.py:169-171 | a DELETE with the query parameters and no body, retried as `_request` retries |
| DnsManager.TypeTablesInverse | bunny_dns/dns_manager.py:13-28 | the record type table and its reverse are mutual inverses, with distinct names and distinct codes |
| DnsManager.ToApiPayload | bunny_dns/dns_manager.py:43-57 | a payload exists exactly when the upper-cased type is in the table (otherwise the KeyError), and it carries that type's code |
| DnsManager.FromApiResponse | bunny_dns/dns_manager.py:59-72 | the type is the reverse-table name of the code, "A" when the code is absent or unknown |
| DnsManager.PayloadRoundTrip | bunny_dns/dns_manager.py:43-72 | decoding an encoded record gives the record back, its type upper-cased and no id |
| DnsManager.UnknownTypeDecodesToA | bunny_dns/dns_manager.py:62 | an absent or unknown type code decodes as "A" |
| DnsManager.DecodedTypeIsKnown | bunny_dns/dns_manager.py:62 | every decoded record has a type the forward table knows, so it can be encoded again |
| DnsManager.RootNames | bunny_dns/dns_manager.py:74-77 | "@", " @ " and "" all normalise to the root name "" |
| DnsManager.NormalizeNameShape | bunny_dns/dns_manager.py:74-77 | a normalised name has no ASCII capital, no surrounding whitespace, and is never "@" |
| DnsManager.NormalizeNameIdempotent | bunny_dns/dns_manager.py:74-77 | normalising a name twice gives the same name as normalising it once |
| DnsManager.MatchesIsEquivalence | bunny_dns/dns_manager.py:88-94 | `matches` is reflexive, symmetric and transitive |
| DnsManager.NeedsUpdateIff | bunny_dns/dns_manager.py:96-109 | records that do not match never need an update; matching ones need one exactly when ttl differs or priority, weight or port differ with absent read as 0 |
| DnsManager.AbsentIsZero | bunny_dns/dns_manager.py:96-98 | absent and 0 priority, weight and port never trigger an update |
| DnsManager.NeedsUpdateSymmetric | bunny_dns/dns_manager.py:100-109 | `needs_update` is symmetric, so `current.needs_update(desired)` is the same test in either order |
| DnsManager.Ipv6FormsMatch | bunny_dns/dns_manager.py:79-94 | two AAAA records with equal names and the same canonical address match, whatever their textual form |
| DnsManager.GetZoneByDomain | bunny_dns/dns_manager.py:148-161 | no zone exactly when no listed domain equals the asked one case-insensitively; otherwise the zone the by-id fetch returns for the id of the first such listed zone, decoded |
| DnsManager.FirstMatch | bunny_dns/dns_manager.py:250-251 | the inner scan's result is an index into the current records |
| DnsManager.FirstMatchSpec | bunny_dns/dns_manager.py:250-264 | the first match matches, nothing before it matches, and there is none exactly when no current record matches |
| DnsManager.FirstMatchAt | bunny_dns/dns_manager.py:250-264 | a matching record with no match before it is the first match |
| DnsManager.Judge | bunny_dns/dns_manager.py:248-269 | a desired record is created exactly when nothing matches; otherwise it is judged at its first match |
| DnsManager.JudgeSpec | bunny_dns/dns_manager.py:248-269 | created exactly when no current record matches; otherwise updated or kept by whether the first match needs an update, later matches playing no part |
| DnsManager.Tallied | bunny_dns/dns_manager.py:248-269 | judging one desired record adds exactly one report line |
| DnsManager.PrefixStep | bunny_dns/dns_manager.py:248-269 | the tally and the calls of the first `i + 1` desired records extend those of the first `i` by record `i`'s share |
| DnsManager.FailureSticks | bunny_dns/dns_manager.py:248-269 | once a desired record has raised, the later ones issue nothing |
| DnsManager.CallForFailure | bunny_dns/dns_manager.py:46 | a desired record raises exactly when it is created or updated with an upper-cased type outside the table, and the error names that type |
| DnsManager.FirstRaise | bunny_dns/dns_manager.py:248-269 | the first raising record is an index into the desired records |
| DnsManager.FirstRaiseSpec | bunny_dns/dns_manager.py:248-269 | the first raising record raises, none before it does, and there is none exactly when no record raises |
| DnsManager.DesiredCallsFailure | bunny_dns/dns_manager.py:248-269 | a live run raises exactly at the first desired record that raises, with that record's KeyError |
| DnsManager.DesiredCallsCount | bunny_dns/dns_manager.py:248-269 | without a raise a live run issues one add or update call per desired record not kept |
| DnsManager.ClassifyPartition | bunny_dns/dns_manager.py:248-269 | every desired record lands in the created, updated or unchanged list its verdict names, and the three lengths add up to the number of desired records |
| DnsManager.ClassifyMatched | bunny_dns/dns_manager.py:245-253 | the consumed ids are exactly the ids of first matches of desired records |
| DnsManager.DeletedExactly | bunny_dns/dns_manager.py:271-278 | `deleted` lists every current record whose id was not consumed and nothing else, at most one line per current record |
| DnsManager.DeletedMatchesCalls | bunny_dns/dns_manager.py:271-278 | nothing is deleted when every id was consumed, and the delete calls follow the deleted lines one for one |
| DnsManager.NoDeleteExtraNoDeleted | bunny_dns/dns_manager.py:272 | without `delete_extra` nothing is reported deleted |
| DnsManager.AllCreatedOnEmpty | bunny_dns/dns_manager.py:265-267 | against an empty zone every desired record is reported created, in order |
| DnsManager.MissingZoneDryMatchesLive | bunny_dns/dns_manager.py:217-225 | the dry-run report for a missing zone is the report a live run gives for the freshly created, empty zone |
| DnsManager.InSyncIsFixpoint | bunny_dns/dns_manager.py:248-278 | the reconciler reports nothing created, updated or deleted exactly when every desired record's first match needs no update and every listed record is some desired record's first match, in any listing order; such a zone reports every desired record unchanged and receives no add, update or delete call |
| DnsManager.NoChangeIsInSync | bunny_dns/dns_manager.py:248-278 | a reconciliation that reports nothing created, updated or deleted found every desired record kept and every listed record matched |
| DnsManager.InSyncChangesNothing | bunny_dns/dns_manager.py:248-278 | a zone in sync reports nothing created, updated or deleted, every desired record unchanged, and receives no call |
| DnsManager.KeepsCallNothing | bunny_dns/dns_manager.py:248-273 | desired records whose verdicts are all "unchanged" issue no add or update call and no failure |
| DnsManager.KeepsOnly | bunny_dns/dns_manager.py:260-263 | a prefix of desired records all judged unchanged creates and updates nothing |
| DnsManager.DoubleMatch | bunny_dns/dns_manager.py:250-253 | two desired records matching the same single current record are both absorbed by it: the inner loop does not skip consumed records |
| DnsManager.CreateScenario | bunny_dns/dns_manager.py:265-269 | creating "A @ -> 1.2.3.4" in an empty zone sends type code 0 and ttl 300 |
| DnsManager.UpdateScenario | bunny_dns/dns_manager.py:254-259 | raising a listed record's ttl to 600 updates it by its id, with the id in the payload |
| DnsManager.FindMatch | bunny_dns/dns_manager.py:250-264 | the scan returns the first matching current record |
| DnsManager.JudgeOne | bunny_dns/dns_manager.py:249-269 | one desired record's report line and consumed id, and in a live run its add or update call or its KeyError |
| DnsManager.JudgeDesired | bunny_dns/dns_manager.py:248-269 | the loop's tally is the classification of the desired records; a dry run issues nothing, a live one the specified calls up to the first raise |
| DnsManager.DeleteUnmatched | bunny_dns/dns_manager.py:271-278 | the deleted lines of the unconsumed current records, and their delete calls in a live run only |
| DnsManager.SyncZone | bunny_dns/dns_manager.py:188-280 | the zone is looked up by domain; an existing one is reconciled, a missing one is reported created with every record in a dry run and otherwise created first and then reconciled; the report and calls are those `Reconciled` specifies, a reported zone is the domain asked for, and a dry run always succeeds without calls |
| DnsManager.ReconcileZone | bunny_dns/dns_manager.py:227-280 | the two loops over a found or created zone give the report and calls of the record classification (`ZoneOutcome`): created, updated, unchanged and deleted lines and their calls, or the KeyError after the calls issued before it |
| DnsManager.DryRunMatchesLive | bunny_dns/dns_manager.py:216-280 | a dry run succeeds without calls; when the live run succeeds its report is the dry run's; a live run on a missing zone starts by creating it |
| EdgeRules.ActionTablesInverse | bunny_dns/edge_rules_manager.py:12-31 | the action table and its reverse are mutual inverses |
| EdgeRules.ActionTableDistinct | bunny_dns/edge_rules_manager.py:12-29 | the action table has distinct names and distinct codes |
| EdgeRules.TriggerTablesInverse | bunny_dns/edge_rules_manager.py:34-47 | the trigger table and its reverse are mutual inverses |
| EdgeRules.TriggerTableDistinct | bunny_dns/edge_rules_manager.py:34-45 | the trigger table has distinct names and distinct codes |
| EdgeRules.MatchNameSpec | bunny_dns/edge_rules_manager.py:78-82 | the match-type scan recovers every name of the table from its code and falls back to the default exactly on codes outside 0..2 |
| EdgeRules.MatchScan | bunny_dns/edge_rules_manager.py:78-82 | the scan stops at the first name whose code matches, else keeps the default |
| EdgeRules.ActionCodesNumbered | bunny_dns/edge_rules_manager.py:12-29 | the action codes are 0 to 15 in table order |
| EdgeRules.TriggerCodesNumbered | bunny_dns/edge_rules_manager.py:34-45 | the trigger codes are 0 to 9 in table order |
| EdgeRules.DecodeActionCode | bunny_dns/edge_rules_manager.py:149 | an action code decodes to the name at that position of the table, "block" outside it |
| EdgeRules.DecodeTriggerCode | bunny_dns/edge_rules_manager.py:77 | a trigger code decodes to the name at that position of the table, "url" outside it |
| EdgeRules.DecodeMatchCode | bunny_dns/edge_rules_manager.py:157-161 | a match code decodes to a name of the table |
| EdgeRules.DecodedNamesKnown | bunny_dns/edge_rules_manager.py:143-169 | every name a decoded rule carries is in its table |
| EdgeRules.TriggerRoundTrip | bunny_dns/edge_rules_manager.py:65-88 | a trigger with known names and no empty parameter decodes back from its payload unchanged |
| EdgeRules.RuleRoundTrip | bunny_dns/edge_rules_manager.py:119-169 | decoding an encoded rule restores its description, enabled flag, triggers, first action, trigger matching and guid, when the names are known and guid and parameters are not empty |
| EdgeRules.RulePayloadCarriesAction | bunny_dns/edge_rules_manager.py:127-138 | the action fields of a rule payload are those of its first action's payload |
| EdgeRules.NoActionsEncodeEmpty | bunny_dns/edge_rules_manager.py:123-124 | a rule without actions encodes to `{}`, which reads back as an enabled "force_ssl" rule with no triggers |
| EdgeRules.UnknownCodesDecode | bunny_dns/edge_rules_manager.py:77-161 | codes outside the tables read as "block", "all", "url" and "any" |
| EdgeRules.ParseActionDefaults | bunny_dns/edge_rules_manager.py:172-205 | type "block" by default; header actions carry header and value; redirect defaults to "301", cache override to "0", status code to "200"; other types carry nothing |
| EdgeRules.ParsedTriggerRoundTrip | bunny_dns/edge_rules_manager.py:208-215 | a configured trigger with known or absent names and no empty parameter survives the wire unchanged |
| EdgeRules.ExpandRuleSpec | bunny_dns/edge_rules_manager.py:218-245 | rule `i` carries exactly action `i`; a single rule keeps the description (default "Edge Rule"), several get " (action i)" counting from 1; all share triggers, enabled flag and trigger matching, without a guid |
| EdgeRules.ParseRuleFromConfig | bunny_dns/edge_rules_manager.py:232-245 | the loop builds exactly the expanded rules |
| EdgeRules.DesiredRulesCount | bunny_dns/edge_rules_manager.py:305-307 | the sync creates one rule per configured action |
| EdgeRules.ReportLinesAt | bunny_dns/edge_rules_manager.py:313-322 | one description and one change line per rule, the `i`-th about rule `i` |
| EdgeRules.DeleteCallsSpec | bunny_dns/edge_rules_manager.py:272-274 | a guid is deleted exactly when a listed rule carries it non-empty, on the given zone, and nothing else is called |
| EdgeRules.DeleteAllRules | bunny_dns/edge_rules_manager.py:269-274 | deletes each listed rule that has a guid, in order |
| EdgeRules.ExpandConfigs | bunny_dns/edge_rules_manager.py:305-307 | the desired rules are the configured rules' expansions, concatenated in order |
| EdgeRules.DeleteListed | bunny_dns/edge_rules_manager.py:313-317 | every listed rule is reported deleted; a live run deletes those with a guid |
| EdgeRules.CreateDesired | bunny_dns/edge_rules_manager.py:320-324 | every desired rule is reported created; a live run adds each with its payload |
| EdgeRules.ReplaceAllReport | bunny_dns/edge_rules_manager.py:309-322 | every listed rule is reported deleted and every desired rule created, in order, and the change lines are one "Deleting rule: " line per listed rule followed by one "Creating rule: " line per desired rule |
| EdgeRules.ReplaceAllCalls | bunny_dns/edge_rules_manager.py:313-324 | a dry run calls nothing; a live run first deletes, on the given zone, exactly the non-empty guids of the listed rules, then makes the additions of the desired rules |
| EdgeRules.AddCallsLength | bunny_dns/edge_rules_manager.py:320-324 | one addition per desired rule |
| EdgeRules.AddCallAt | bunny_dns/edge_rules_manager.py:320-324 | the `i`-th addition adds the `i`-th desired rule's payload on the given zone |
| EdgeRules.AddCallsAt | bunny_dns/edge_rules_manager.py:320-324 | the additions are, in order, one add-or-update per desired rule carrying that rule's payload |
| EdgeRules.SyncRules | bunny_dns/edge_rules_manager.py:276-326 | the report and calls are the replace-all of the listing by the expanded configuration (`RulesOutcome`), whose meaning `ReplaceAllReport`, `ReplaceAllCalls`, `AddCallsAt` and `DesiredRulesCount` state |
| PullZones.ZoneTypeCodeSpec | bunny_dns/pullzone_manager.py:187 | only "volume" reads as type 1; an absent or any other name reads as 0 |
| PullZones.ZoneRoundTrip | bunny_dns/pullzone_manager.py:57-94 | decoding an encoded zone gives it back without id and hostnames and enabled, when origin URL and host header are absent or non-empty |
| PullZones.GetZoneByNameSpec | bunny_dns/pullzone_manager.py:114-120 | a zone is found exactly when some listed name equals the asked one ignoring case, and it is the first such |
| PullZones.UpperAllIn | bunny_dns/pullzone_manager.py:193 | a code is among the upper-cased regions exactly when some configured region upper-cases to it |
| PullZones.DefaultRegionFlags | bunny_dns/pullzone_manager.py:192 | without `enabled_regions` all five regions are on |
| PullZones.RegionFlagsSpec | bunny_dns/pullzone_manager.py:192-210 | each region flag is whether its code is named, ignoring case |
| PullZones.RegionChangesEmpty | bunny_dns/pullzone_manager.py:226-241 | no region change is listed exactly when all five flags agree |
| PullZones.NeedsZoneUpdateIff | bunny_dns/pullzone_manager.py:214-241 | an existing zone needs an update exactly when a given origin URL or host header differs, the type differs, or a region flag differs |
| PullZones.CheckRegion | bunny_dns/pullzone_manager.py:228-229 | one region entry is appended exactly when its flag differs |
| PullZones.CheckRegions | bunny_dns/pullzone_manager.py:226-237 | the region changes of the five checks, in the order US, EU, ASIA, SA, AF |
| PullZones.CheckForUpdate | bunny_dns/pullzone_manager.py:214-241 | the notes of the update checks in order, and the update flag exactly when one was produced |
| PullZones.CurrentHostnamesKeys | bunny_dns/pullzone_manager.py:267-271 | the current hostname keys are the lower-cased values of the non-system hostnames |
| PullZones.CurrentHostnamesEntries | bunny_dns/pullzone_manager.py:267-271 | every entry holds a listed non-system hostname under its lower-cased value |
| PullZones.LastListedWins | bunny_dns/pullzone_manager.py:267-271 | a key holds the last non-system hostname listed under it, as the dict comprehension overwrites |
| PullZones.AddIfMissing | bunny_dns/pullzone_manager.py:276-294 | one pass of the add loop appends exactly that hostname's effects |
| PullZones.RetryIfUncertified | bunny_dns/pullzone_manager.py:298-308 | one pass of the certificate loop appends exactly that hostname's effects |
| PullZones.CorrectIfDifferent | bunny_dns/pullzone_manager.py:313-323 | one pass of the Force SSL loop appends exactly that hostname's effects |
| PullZones.RemoveIfUnwanted | bunny_dns/pullzone_manager.py:327-331 | one pass of the removal loop appends exactly that entry's effects |
| PullZones.AddMissing | bunny_dns/pullzone_manager.py:275-294 | the add loop appends the effects of every desired hostname in iteration order |
| PullZones.RetryCertificates | bunny_dns/pullzone_manager.py:297-308 | the certificate loop appends the effects of every desired hostname in iteration order |
| PullZones.CorrectForceSsl | bunny_dns/pullzone_manager.py:311-323 | the Force SSL loop appends the effects of every desired hostname in iteration order |
| PullZones.RemoveExtra | bunny_dns/pullzone_manager.py:326-331 | the removal loop appends the effects of every current entry in dict order |
| PullZones.Enumerate | bunny_dns/pullzone_manager.py:188 | the set of desired hostnames is walked in some order that lists each element once |
| PullZones.PlanAdditions | bunny_dns/pullzone_manager.py:261-265 | for a zone a dry run would create, every desired hostname is reported added |
| PullZones.SyncZoneRecord | bunny_dns/pullzone_manager.py:195-257 | created exactly when the listing lacks the zone, updated exactly when a listed zone needs it; the notes, the create or update call in a live run only, and the zone the hostname loops then see |
| PullZones.SyncHostnames | bunny_dns/pullzone_manager.py:259-331 | the four hostname loops' effects, in order |
| PullZones.SyncZone | bunny_dns/pullzone_manager.py:157-333 | the report and calls are the planned ones for an iteration order of the desired hostname set, and the report names the zone |
| PullZones.AddPhaseFields | bunny_dns/pullzone_manager.py:275-294 | the add loop removes nothing, and in a dry run calls nothing and loads no certificate |
| PullZones.RetryPhaseFields | bunny_dns/pullzone_manager.py:297-308 | the certificate loop adds and removes nothing, and in a dry run calls and loads nothing |
| PullZones.SslPhaseFields | bunny_dns/pullzone_manager.py:311-323 | the Force SSL loop adds, removes and loads nothing, and in a dry run calls nothing |
| PullZones.RemovePhaseFields | bunny_dns/pullzone_manager.py:326-331 | the removal loop adds and loads nothing, and in a dry run calls nothing |
| PullZones.HostnameEffectsDry | bunny_dns/pullzone_manager.py:259-331 | the hostname loops of a dry run call nothing and load no certificate |
| PullZones.DryRunCallsNothing | bunny_dns/pullzone_manager.py:157-333 | a dry run issues no call and loads no certificate |
| PullZones.AddPhaseAdded | bunny_dns/pullzone_manager.py:275-278 | the add loop reports each desired hostname missing from the zone, once |
| PullZones.HostnameEffectsAdded | bunny_dns/pullzone_manager.py:259-331 | only the add loop reports added hostnames |
| PullZones.AddedAreMissing | bunny_dns/pullzone_manager.py:259-278 | the hostnames reported added are the desired ones whose lower-cased form is not a non-system hostname of the zone, each once; for a zone a dry run would create, all of them |
| PullZones.RemovePhaseRemoved | bunny_dns/pullzone_manager.py:326-328 | the removal loop reports the value of each current entry whose key nobody wants, and nothing else |
| PullZones.RemovalsAreListed | bunny_dns/pullzone_manager.py:267-328 | every removed value is a listed non-system hostname whose lower-cased value nobody wants |
| PullZones.UnwantedAreRemoved | bunny_dns/pullzone_manager.py:267-328 | every listed non-system hostname nobody wants has a removal under its lower-cased value |
| PullZones.RemovedAreExtra | bunny_dns/pullzone_manager.py:267-331 | for the reconciled zone, the removed hostnames are exactly its unwanted non-system hostnames, each lower-cased value once |
| PullZones.CertPhasesLoaded | bunny_dns/pullzone_manager.py:276-308 | in a live run the first two loops record a certificate for a desired hostname exactly when it is missing or uncertified and its load succeeds |
| PullZones.CertificatesLoaded | bunny_dns/pullzone_manager.py:276-308 | in a live run the certificates reported loaded are the desired hostnames without a certified current hostname of the same lower-cased name whose load succeeds |
| PullZones.AddOneJustified | bunny_dns/pullzone_manager.py:276-294 | every call of one add pass is one the configuration and the zone call for |
| PullZones.AddPhaseJustified | bunny_dns/pullzone_manager.py:275-294 | every call of the add loop is justified |
| PullZones.RetryPhaseJustified | bunny_dns/pullzone_manager.py:297-308 | every call of the certificate loop is justified |
| PullZones.SslPhaseJustified | bunny_dns/pullzone_manager.py:311-323 | every call of the Force SSL loop is justified |
| PullZones.RemovePhaseJustified | bunny_dns/pullzone_manager.py:326-331 | every call of the removal loop is justified |
| PullZones.HostnameCallsJustified | bunny_dns/pullzone_manager.py:259-331 | every hostname call is an add of a missing desired hostname, a certificate for one without, the configured Force SSL where it differs, or a removal of an unwanted one |
| PullZones.ZoneCallsAre | bunny_dns/pullzone_manager.py:197-257 | the zone step calls only for creating an unlisted zone or updating a listed one that differs, on its id, with the configured settings |
| PullZones.ZoneAndHostnameCallsJustified | bunny_dns/pullzone_manager.py:197-331 | each call of the zone step and the hostname loops is such a zone call or a justified hostname call, and Force SSL is set only to the configured value |
| PullZones.CallsJustified | bunny_dns/pullzone_manager.py:157-333 | the zone is created only when unlisted and updated only when it differs, in a live run; every other call is a justified hostname call; Force SSL is set only to the configured value |
| PullZones.EachNotes | bunny_dns/pullzone_manager.py:275-331 | a loop appends a note exactly when one of its passes does |
| PullZones.AddOneItems | bunny_dns/pullzone_manager.py:276-294 | one pass of the add loop touches hostname `h` only when it is a live pass over a missing `h`: then it adds `h`, loads its certificate and sets the configured Force SSL, warning for each of the last two that fails |
| PullZones.AddPhaseItems | bunny_dns/pullzone_manager.py:275-294 | in a live run the add loop adds each missing desired hostname, loads its certificate and sets the configured Force SSL, with a warning exactly when the load or the Force SSL call fails; it writes no certificate-loading or Force SSL change note and removes nothing |
| PullZones.RetryOneItems | bunny_dns/pullzone_manager.py:297-308 | one pass of the certificate loop touches `h` only when it is a pass over a listed `h` without a certificate: the loading note and, live, the load call and a warning when it fails |
| PullZones.RetryPhaseItems | bunny_dns/pullzone_manager.py:296-308 | a desired hostname listed without a certificate gets the "Loading certificate" note and, in a live run, the load call, with a warning exactly when it fails; no other hostname does, and the loop adds, sets no Force SSL and removes nothing |
| PullZones.SslOneItems | bunny_dns/pullzone_manager.py:311-323 | one pass of the Force SSL loop touches `h` only when it is a pass over a listed `h` whose flag differs: the change note and, live, the call and a warning when it fails |
| PullZones.SslPhaseItems | bunny_dns/pullzone_manager.py:310-323 | a desired hostname listed with a Force SSL other than the configured one gets the change note and, in a live run, the call, with a warning exactly when it fails; without a configured Force SSL nothing happens, and the loop adds, loads and removes nothing |
| PullZones.RemovePhaseItems | bunny_dns/pullzone_manager.py:325-331 | the removal loop writes no certificate or Force SSL note, adds, loads and sets nothing, and in a live run removes a value exactly when a current entry nobody wants holds it |
| PullZones.HostnameItems | bunny_dns/pullzone_manager.py:275-331 | over the four loops: the loading note exactly for a desired listed hostname without a certificate, the change note exactly for one whose Force SSL differs, and in a live run the add, load, Force SSL and remove calls exactly where missing, uncertified, lacking the configured flag or unwanted, with a warning exactly for each failed load or Force SSL call |
| PullZones.ZoneNotesAreZoneLevel | bunny_dns/pullzone_manager.py:197-241 | the notes about the zone itself are about its creation or its settings, never about a hostname |
| PullZones.CertificateNotes | bunny_dns/pullzone_manager.py:296-308 | the report says a certificate is loading exactly for a desired hostname whose current entry has no certificate; a dry run reports no certificate warning |
| PullZones.ForceSslNotes | bunny_dns/pullzone_manager.py:310-323 | the report says Force SSL changes to `f` exactly for a desired listed hostname whose flag differs from a configured `f`; a dry run reports no Force SSL warning |
| PullZones.LiveWarnings | bunny_dns/pullzone_manager.py:282-323 | in a live run a certificate warning is reported exactly when the hostname's certificate is loaded and the load fails, and a Force SSL warning exactly when Force SSL is set on it and the call fails |
| PullZones.LiveCallsIssued | bunny_dns/pullzone_manager.py:275-331 | in a live run each hostname reported added has its add and certificate calls, each desired uncertified hostname its load call, each desired hostname lacking the configured Force SSL its Force SSL call and each value reported removed its remove call, and no such call is issued otherwise |
| PullZones.HostnameListingSameWhenDry | bunny_dns/pullzone_manager.py:259-331 | the hostname loops of a dry run add and remove the same hostnames as a live run on that zone |
| PullZones.DryRunMatchesLive | bunny_dns/pullzone_manager.py:157-333 | on a listed zone needing no update, a dry run reports the same zone flags and added and removed hostnames as a live run |
| PullZones.ConvergedPhasesQuiet | bunny_dns/pullzone_manager.py:259-331 | each hostname loop over a converged zone does nothing |
| PullZones.ConvergedZoneIsQuiet | bunny_dns/pullzone_manager.py:157-333 | reconciling a zone that already matches its configuration changes nothing and calls nothing |
| Sync.FilterDomains | bunny_dns/sync.py:45-54 | without a filter every configured domain is kept; with one, the result is the entries whose name equals the filter ignoring case, in configuration order |
| Sync.SelectedKeys | bunny_dns/sync.py:50-54 | the filtered domains are exactly the configured ones whose lower-cased name equals the lower-cased filter |
| Sync.SelectedLookup | bunny_dns/sync.py:50-54 | a domain equal to the filter ignoring case keeps its configuration; no other domain is in the result |
| Sync.TallyDns | bunny_dns/sync.py:112-115 | appending a DNS report raises the three DNS totals by the lengths of its created, updated and deleted lists |
| Sync.TallyZone | bunny_dns/sync.py:127-149 | appending a pull zone result raises the zone totals by one for created and for updated, the hostname totals by the added and removed counts, and the edge rule totals by its rule report's created and deleted counts when it has one |
| Sync.CountersDns | bunny_dns/sync.py:112-115 | the counters kept in order absorb a new DNS report as `sync` increments them |
| Sync.CountersZone | bunny_dns/sync.py:127-149 | the counters kept in order absorb a new pull zone result as `sync` increments them |
| Sync.CountersAreTotals | bunny_dns/sync.py:76-149 | the nine summary counters, incremented result by result from zero, equal the totals over all DNS reports and pull zone results |
| Sync.SyncedAppend | bunny_dns/sync.py:102-149 | the domains of the DNS syncs and the (domain, zone) pairs of the pull zone syncs of two logs one after the other are those of the first followed by those of the second |
| Sync.DnsRecorded | bunny_dns/sync.py:112-115 | recording a DNS report with the one DNS sync that produced it keeps the summary equal to the totals and the reports aligned with the syncs |
| Sync.ZoneRecorded | bunny_dns/sync.py:126-134 | recording a pull zone result with the one zone sync that produced it, tagged with its domain, keeps the summary equal to the totals and the results aligned with the syncs |
| Sync.ZoneStepSynced | bunny_dns/sync.py:119-149 | one zone's invocations hold no DNS sync and exactly one pull zone sync, of that domain and zone |
| Sync.FitsAdmitsDns | bunny_dns/sync.py:106-111 | pairing each invocation with its manager's specified outcome admits every DNS manager outcome |
| Sync.FitsAdmitsZones | bunny_dns/sync.py:121-126 | it admits every pull-zone manager outcome, for each enumeration of the desired hostnames |
| Sync.FitsAdmitsRules | bunny_dns/sync.py:138-146 | it admits the lookup's empty outcome and every edge rules manager outcome |
| Sync.FitsAdmitsOutcomes | bunny_dns/sync.py:102-149 | it admits the outcome of every manager |
| Sync.ExplainedByFits | bunny_dns/sync.py:102-149 | a log each of whose invocations is paired under that relation with an outcome is explained by the managers' specifications |
| Sync.Accounted1 | bunny_dns/sync.py:102-149 | recording one more invocation with a fitting outcome, and adding that outcome to the results and calls, keeps the run accounted for |
| Sync.LookupAccounted | bunny_dns/sync.py:138-139 | recording a zone lookup, which returns no report and issues no call, keeps the run accounted for |
| Sync.RuleSyncAccounted | bunny_dns/sync.py:140-149 | recording a rule sync whose report goes to the latest pull zone result and whose calls are appended keeps the run accounted for |
| Sync.RulesAccounted | bunny_dns/sync.py:136-149 | recording a zone's rule steps, with the rule report on that zone's result, keeps the run accounted for |
| Sync.ZoneAccounted | bunny_dns/sync.py:119-149 | recording a zone sync and its rule steps, with the zone's result carrying the rule report, keeps the run accounted for |
| Sync.DnsZoneSync | bunny_dns/sync.py:106-111 | the result and calls are the DNS manager's specified outcome (`Reconciled`) on the world's listing and replies for that domain; its report is for that domain, and a dry run succeeds without calls |
| Sync.InvokeDns | bunny_dns/sync.py:106-111 | what the DNS manager returns fits the DNS sync invocation under any relation that admits the DNS manager's outcome |
| Sync.SyncDns | bunny_dns/sync.py:104-115 | the DNS manager is invoked only for a domain with `dns_records`, and what it returns is that manager's outcome; the run stays accounted for (each invocation with its outcome, collected results equal to what was recorded); its error is passed on; on success the report is recorded and the run stays consistent; a dry run never fails and calls nothing |
| Sync.PullZoneSyncOf | bunny_dns/sync.py:121-126 | the report and calls are the pull-zone manager's specified outcome (`Planned`) for some enumeration of the desired hostnames; the report is for the zone passed, and a dry run issues no remote call |
| Sync.InvokePullZone | bunny_dns/sync.py:121-126 | what the pull-zone manager returns fits the zone sync invocation under any relation that admits the pull-zone manager's outcome; the report is for that zone; a dry run calls nothing |
| Sync.RulesSyncOf | bunny_dns/sync.py:137-149 | edge rules are looked up and synced as the rule steps say; there is a rule report exactly when the zone has `edge_rules` and `get_zone_by_name` finds it, and then it and its calls are the edge rules manager's outcome on the found zone's id; a dry run calls nothing |
| Sync.InvokeRules | bunny_dns/sync.py:136-149 | with rules enabled the rule steps run, each with an outcome the relation admits (nothing for the lookup, the edge rules manager's outcome for the sync); a report exists only after a lookup that found the zone; a dry run calls nothing |
| Sync.SyncPullZone | bunny_dns/sync.py:119-149 | one zone: its invocations are the zone sync and, when rules are synced, the rule lookup and sync; each returns its manager's outcome and the run stays accounted for; the counters grow by its result and the run stays consistent; a dry run calls nothing |
| Sync.FlattenZones | bunny_dns/sync.py:119 | the invocations of the first zones, zone by zone, are the invocations of those zones as a whole |
| Sync.SyncPullZones | bunny_dns/sync.py:118-149 | every zone of a domain in configuration order, keeping the run consistent and accounted for and the DNS reports unchanged; a dry run calls nothing |
| Sync.SyncDomain | bunny_dns/sync.py:102-149 | one domain: its DNS records unless only pull zones are synced, then its zones unless only DNS is; the run stays accounted for; a failure comes only from a DNS sync the mode performs |
| Sync.RunStep | bunny_dns/sync.py:102-149 | after the first i domains ran without raising and accounted for, the i-th either runs too or stops the run at its DNS sync, still accounted for |
| Sync.Run | bunny_dns/sync.py:102-149 | the loop over the selected domains: every invocation is paired with its manager's outcome and the collected outcomes are the recorded results and calls; without a failure the log is every step of every domain and the run is consistent; a failure stops it right at the raising DNS sync; a dry run never fails and issues no remote call |
| Sync.Sync | bunny_dns/sync.py:56-151 | an empty selection for a non-empty filter fails with the domain-not-found error before anything runs; otherwise the k-th outcome is what the k-th invocation's manager specifies (`Explained`), the remote calls are the outcomes' calls concatenated in order, and on success the reports and results are those outcomes collected, the invocations are the full run's steps, the summary is their totals and the results line up with the invocations; a DNS error stops the run there; a dry run calls nothing |
| Sync.SyncDnsOnly | bunny_dns/sync.py:153-181 | the same filter error; otherwise each outcome is its DNS sync's specified one, the calls are theirs in order, and on success the reports are those outcomes collected and only the DNS steps ran, lining up with the reports; a DNS error stops the run there; a dry run calls nothing |
| Sync.SyncPullZonesOnly | bunny_dns/sync.py:303-330 | the same filter error; otherwise it always succeeds, invokes only the pull zone syncs, with no edge rules, each outcome is that sync's specified one, the results are those outcomes collected and line up with the syncs, and the calls are theirs in order; a dry run calls nothing |
| SyncSteps.ZoneStepMember | bunny_dns/sync.py:119-149 | one zone invokes its zone sync, and with rules enabled and configured the lookup of that zone and, when found, the rule sync with the found id, the rules and `dry_run`, and nothing else |
| SyncSteps.ZonesStepsMember | bunny_dns/sync.py:119 | a domain's zones invoke exactly what one of its zones invokes |
| SyncSteps.FlattenDomains | bunny_dns/sync.py:102 | the invocations of the first domains, domain by domain, are the run over those domains |
| SyncSteps.StepsMember | bunny_dns/sync.py:102 | a run invokes exactly what one of its domains invokes |
| SyncSteps.ZonesStepsKinds | bunny_dns/sync.py:119-149 | a zone's invocations are pull zone syncs, or rule lookups and rule syncs when rules are enabled, never DNS syncs |
| SyncSteps.DnsSyncsOf | bunny_dns/sync.py:102-111 | the DNS manager syncs a domain with some records exactly when the mode syncs DNS, the records are the domain's non-empty `dns_records`, and the flags are `dry_run` and `delete_extra_records` unchanged |
| SyncSteps.DomainPullZoneSyncs | bunny_dns/sync.py:118-125 | a domain's steps sync a zone with a configuration exactly when the mode syncs pull zones and that zone is configured so under the domain, with `dry_run` unchanged |
| SyncSteps.PullZoneSyncsOf | bunny_dns/sync.py:118-125 | a run syncs a pull zone exactly when the mode syncs pull zones and some selected domain configures that zone so, with `dry_run` unchanged |
| SyncSteps.DomainRulesSyncs | bunny_dns/sync.py:137-146 | a domain's steps sync rules for a zone exactly in `sync`, for non-empty `edge_rules` of a zone configured under it that `get_zone_by_name` finds, with the found id |
| SyncSteps.RulesSyncsOf | bunny_dns/sync.py:137-146 | edge rules are synced only by `sync`, exactly for a configured zone with non-empty `edge_rules` that `get_zone_by_name` finds, with that zone's id, those rules and `dry_run` |
| SyncSteps.DnsOnlySyncsDns | bunny_dns/sync.py:170-179 | `sync_dns_only` invokes only the DNS manager |
| SyncSteps.PullZonesOnlySyncsZones | bunny_dns/sync.py:319-328 | `sync_pullzones_only` invokes only the pull-zone manager's zone sync, never an edge rule lookup or sync |
| SyncSteps.RulesPlacedAppend | bunny_dns/sync.py:102-149 | the placement of rule syncs survives putting two logs one after the other |
| SyncSteps.ZoneStepRulesPlaced | bunny_dns/sync.py:121-146 | within one zone, a rule sync comes right after its zone's lookup, which comes right after that zone's sync with the same rules and `dry_run` |
| SyncSteps.ZonesStepsRulesPlaced | bunny_dns/sync.py:118-149 | rule syncs are so placed within a domain's zones |
| SyncSteps.DomainStepsRulesPlaced | bunny_dns/sync.py:102-149 | rule syncs are so placed within one domain's steps |
| SyncSteps.StepsRulesPlaced | bunny_dns/sync.py:102-149 | in every run, each edge rule sync follows the lookup of its zone, which follows that zone's pull-zone sync with the same rules and `dry_run`, and uses the found zone's id |
| Pull.ZoneDictKeys | bunny_dns/sync.py:231-236 | the pulled zone dictionary holds one key per zone name of the domain |
| Pull.ZoneDictLookup | bunny_dns/sync.py:231-236 | under each name the dictionary holds the configuration, with its exported edge rules, of the last zone so named |
| Pull.PullZoneDict | bunny_dns/sync.py:231-236 | the loop builds exactly that dictionary |
| Pull.DomainPulledNone | bunny_dns/sync.py:224-244 | a single domain is reported missing exactly when its DNS zone was exported and not found, and pull zones were not pulled or none belong to it |
| Pull.DomainPulledShape | bunny_dns/sync.py:224-246 | a found domain is the one key of the result; it has `dns_records` exactly when not only pull zones were pulled, holding the exported records or an empty list, and `pull_zones` exactly when not only DNS was pulled, keyed by the domain's zone names |
| Pull.PullDomain | bunny_dns/sync.py:212-246 | `_pull_domain` returns exactly that result |
| Pull.FirstDomainSpec | bunny_dns/sync.py:273-278 | the domain found for a hostname is the first of the list that the hostname equals or ends with "." plus, ignoring case; none is found exactly when it belongs to none |
| Pull.LiftMatch | bunny_dns/sync.py:270-280 | a hostname without a match leaves the outer loop's answer to the ones after it |
| Pull.MatchFromSpec | bunny_dns/sync.py:270-280 | the outer loop ends with a non-empty domain exactly when some non-system hostname belongs to a non-empty domain, and then it is the first domain the first such hostname belongs to |
| Pull.MatchedSpec | bunny_dns/sync.py:269-280 | the same for the match of one pull zone, starting from no match |
| Pull.MatchDomain | bunny_dns/sync.py:268-280 | the two nested loops with their `continue` and `break`s compute exactly that match |
| Pull.PullAllDomains | bunny_dns/sync.py:248-301 | `_pull_all_domains` computes exactly the full pull: records of every exported zone, each pull zone placed under its matched domain, and `pull_zones` keys added |
| Pull.PlacedLookup | bunny_dns/sync.py:267-287 | placing pull zones keeps every domain's records, and under each domain and name leaves the last zone so named that matched the domain, or the entry as before |
| Pull.DnsEntriesLookup | bunny_dns/sync.py:253-258 | exporting all DNS zones gives each domain its zone's records and no pull zones yet |
| Pull.WithPullZonesLookup | bunny_dns/sync.py:296-298 | adding `pull_zones` keys keeps every entry otherwise as it was, and adds the key to every present domain |
| Pull.WithPullZonesGet | bunny_dns/sync.py:296-298 | adding `pull_zones` keys changes neither records nor zones of any domain |
| Pull.AllDomainsLookup | bunny_dns/sync.py:248-301 | a full pull gives each domain the records its DNS zone exported unless only pull zones were pulled, and under each name the last pull zone so named matched to it unless only DNS was pulled |
| Pull.AllDomainsHavePullZones | bunny_dns/sync.py:296-298 | after a full pull a domain has a `pull_zones` key exactly when not only DNS was pulled |
| Pull.Pull | bunny_dns/sync.py:183-210 | `pull_all` wins and pulls everything; otherwise a non-empty domain is pulled alone; otherwise the call fails with the missing-argument error, and in no other case |

## Left out

- HTTP transport: the `requests` session, headers and URL building are not modelled. The response to each attempt of a request is a parameter.
- `time.sleep`: it is not performed. The retry loop returns the list of delays it asks for.
- Remote failures of manager calls: every create, update and delete call to the provider is taken to succeed. The only error a manager raises in the model is the local `KeyError` of a DNS record with an unknown type. Best-effort certificate and force-SSL calls have a success-or-warning outcome, supplied per hostname.
- Provider state between calls: the listings and replies are fixed snapshots passed in (`World`, `Account`, `Replies`). A call does not change what later calls see, except where the source itself re-reads the listing.
- IPv6 canonicalisation through `ipaddress.IPv6Address`: this is a foreign library, so it is a function parameter that may fail, with the raw value used on failure.
- `str.lower` and `str.upper`: only ASCII letters are changed. There is no Unicode case mapping.
- `load_config`, `print_results`, bunny_dns/main.py and bunny_dns/check_propagation.py: file and JSON I/O, output formatting, the command line and network probes.
- The exports the pull direction relies on (`export_zone`, `export_all_zones`, `get_zones_for_domain`, `list_zones` of the DNS manager, `to_config_dict`, `export_rules`) are not part of this model. The `Account` snapshot carries what they return.
- The stderr warning for a pull zone that matches no domain: it is output only. The zone is dropped, as in the source.
- Exact wording of pull-zone change and warning notes: notes are a datatype of note kinds. Edge rule change lines are exact strings.
- Iteration order of the desired hostnames: the source keeps them in a Python `set`. The model takes any enumeration of that set and states hostname properties over sets.
- The type of an edge rule action's `status_code`: the source passes the configured value on as it is, while it converts `seconds` and `code` with `str()`. The model takes `status_code` as text. A configuration that gives a number there is sent as a number by the source, and the model cannot express that.
- The zone create, update and delete helpers of the managers are modelled only as the calls `sync_zone` issues through them.
- Pull.Pull: it returns the inner `domains` dictionary, not the one-key `{"domains": ...}` wrapper around it.
- Pull.PullAllDomains: each `setdefault` is modelled as an update of an ordered dictionary, which keeps Python's insertion order.
- PullZones.RemovedAreExtra: it requires that a zone exists after the zone step. In the one case without one, a dry run for a missing zone, the source returns before the hostname loops, and `PlanAdditions` covers that case.
- DnsManager.DryRunMatchesLive: for a missing zone it requires that the zone the create call returns has no records. A dry run cannot see that reply, and reports every configured record as created.
- PullZones.DryRunMatchesLive: it requires a listed zone that needs no update. When the zone needs an update, the live run goes on with the zone the update call returns, which a dry run cannot see. `HostnameListingSameWhenDry` states the agreement of the hostname loops for any given zone.
- PullZones.CertificatesLoaded: it requires a live run with a zone after the zone step. That is the only case in which the source fills `certificates_loaded`.
- Sync.World.listingAfter: the listing `get_zone_by_name` sees after a pull zone was synced is a free snapshot per zone name. It is not tied to the zone sync that precedes it. In a dry run, for instance, that lookup may find a zone the run did not create.
- Sync.SelectedLookup: it requires distinct domain names, as the keys of a Python dictionary are.
- Pull.DnsEntriesLookup: it requires distinct zone names in the DNS export, as the keys of a Python dictionary are.
- Pull.AllDomainsLookup: it requires distinct zone names in the DNS export, as the keys of a Python dictionary are.
- Pull.AllDomainsHavePullZones: it requires distinct zone names in the DNS export, as the keys of a Python dictionary are.
