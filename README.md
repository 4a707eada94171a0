# Solr Power search API — a Dafny model

This project models the decision logic of the `SolrPower_Api` class of the Solr
Power WordPress plugin: the class that turns a search request into a Solarium
select query, reads the answer, caches per-post-type document counts, pings the
Solr index and uploads a schema when the index reports that it has none.

The model is split by component:

- `php.dfy` (module `Php`): the PHP behaviour the code leans on. This covers string truthiness
  ("" and "0" are falsy), `strpos` (first occurrence, `false` when absent), and
  the decimal text of an integer in a concatenation.
- `connection.dfy` (module `Connection`): `compute_path`, the default-scheme rule
  and the fail-closed test of `get_solr`, as functions of the host environment.
- `query.dfy` (module `QueryShaping`): the facet-field list, the sort, the filter
  queries, the fixed select and highlighting parameters, and the status test
  of `master_query`. Three of the four `foreach` loops of `master_query`
  are methods proved against specification functions: `AppendSuffixed` covers
  the taxonomy and custom-field loops (lines 260 and 267), and
  `CollectFilterQueries` the filter loop (line 298). The facet loop at line 289,
  which only adds one facet per field, is folded into the function `FacetSetFor`.
- `schema.dfy` (module `Schema`): the ordered preflight checks and the result
  message of `submit_schema`, and the `strpos` notice test of `check_for_schema`.
- `api.dfy` (module `SolrPower`): the class `SolrPowerApi`, with the fields `log`,
  `solr`, `lastCode` and `lastError`. Its methods update these fields in place.
  The object cache and the transient store are two small classes passed in.

Every network exchange (select, ping, schema upload) is appended to the ghost
trace `SolrPowerApi.sent`. Its answer is an input: a `Server` function for
selects, a `PingOutcome` for the ping, and an HTTP status for the upload. Host
lookups are fields of the datatypes `HostEnv` and `Site`. These lookups are
`getenv`, the constants `SOLR_PATH` and `SOLR_POWER_SCHEME`, `realpath`, the set
of existing files, the plugin options, `get_taxonomies`, `get_post_types` and
the message of `sanity_check`.

Four places where the code does less than a first reading suggests, modelled as written:

- The response test at line 314 reads `! $code == 200`. PHP parses this as
  `(!$code) == 200`, so a response is dropped only when its status code is 0.
  A 404 response is returned, not turned into a failure.
- Only filter entries equal to `""` are dropped. Whitespace-only entries are kept.
- The facet list is free of duplicates only when the configured names are
  (`FacetFieldsDistinct`).
- The notice is shown only when "Error" is found at an offset other than 0.

## Model

| member | source | states |
|---|---|---|
| `Php.StrPos` | includes/class-solrpower-api.php:399 | the result is the first offset where the needle occurs, or None exactly when it occurs nowhere |
| `Php.NatToStringRoundTrip` | includes/class-solrpower-api.php:101-105 | the status code's decimal text, as put into the upload message, reads back as that code |
| `Connection.ComputePath` | includes/class-solrpower-api.php:114-120 | SOLR_PATH wins when defined; otherwise the path is truthy and is `/sites/self/environments/`, the environment's name (empty when unset), then `/index` |
| `Connection.DefaultScheme` | includes/class-solrpower-api.php:160 | the scheme is always http or https; it is SOLR_POWER_SCHEME when that is http or https, else https |
| `Connection.Connect` | includes/class-solrpower-api.php:159-185 | a client exists exactly when host, port and path are all truthy; it carries those host, port and path, the default scheme of `DefaultScheme` and the client certificate as its local certificate |
| `Connection.ConnectWithoutOverride` | includes/class-solrpower-api.php:177-185 | without SOLR_PATH the path test cannot fail: a client exists exactly when host and port are truthy |
| `Connection.FalsyOverrideFailsClosed` | includes/class-solrpower-api.php:177-185 | a SOLR_PATH of "" or "0" means no client is ever built |
| `QueryShaping.CollectFacetFields` | includes/class-solrpower-api.php:236-270 | the appended list is categories, tags, post_author, post_type (each when its flag is set), then `<t>_taxonomy` per taxonomy when taxonomy faceting is counted on, then `<f>_str` per custom field when that option is a non-empty array |
| `QueryShaping.AppendSuffixed` | includes/class-solrpower-api.php:260-262 | one `foreach` appends, in order, each name followed by the suffix |
| `QueryShaping.Suffixed` | includes/class-solrpower-api.php:267-269 | same length as the names, element k is name k followed by the suffix |
| `QueryShaping.FacetFieldsDistinct` | includes/class-solrpower-api.php:236-270 | the facet list has no duplicates if and only if the enabled taxonomy names and the enabled custom field names have none |
| `QueryShaping.FacetFieldsMembers` | includes/class-solrpower-api.php:239-263 | each fixed facet is in the list exactly when its flag is set; `<t>_taxonomy` is in it exactly when taxonomy faceting is on |
| `QueryShaping.Kept` | includes/class-solrpower-api.php:298-302 | every filter query has equal key and query text, both a non-empty input entry; every non-empty entry yields one; as many are made as there are entries other than "" |
| `QueryShaping.KeptAppend` | includes/class-solrpower-api.php:298-302 | filter queries follow the order of their entries: the filters of a concatenation are the concatenation of the filters |
| `QueryShaping.KeptExamples` | includes/class-solrpower-api.php:299 | `["", "title:foo", ""]` gives exactly one filter `title:foo`; a whitespace entry is kept |
| `QueryShaping.CollectFilterQueries` | includes/class-solrpower-api.php:297-303 | the loop yields exactly the specified filter queries, and none when `$fq` is unset |
| `QueryShaping.SelectShape` | includes/class-solrpower-api.php:273-310 | fields `*,score`, start = offset, rows = count, header kept; sort `post_date desc` when no sort field, otherwise exactly the given field and order; min-count 1; limit set (to the tag maximum) exactly when tag faceting is on; highlighting on post_content with `<b>`/`</b>` and multi-term |
| `QueryShaping.DiscardsOnlyFalsyStatus` | includes/class-solrpower-api.php:314-316 | the guard as PHP parses it drops a response exactly when its status code is 0; 200, 404 and 500 are kept |
| `QueryShaping.Interpret` | includes/class-solrpower-api.php:312-320 | a response is returned exactly when the select did not throw and the status code is non-zero, and it is the server's response unchanged |
| `SolrPower.Merged` | includes/class-solrpower-api.php:332-334 | the merged log has every old key and every item key; item keys take the item's value, the other keys keep the old value |
| `SolrPower.MergeShadowed` | includes/class-solrpower-api.php:225-232 | a logged request whose keys the next logged request covers leaves no trace |
| `SolrPower.SolrPowerApi.AddLog` | includes/class-solrpower-api.php:332-334 | the log becomes the merge of the old log with the item |
| `SolrPower.SolrPowerApi.GetSolr` | includes/class-solrpower-api.php:151-194 | returns the client of the connection rule; a client built is stored in `solr`, a refusal leaves `solr` as it was |
| `SolrPower.SolrPowerApi.MasterQuery` | includes/class-solrpower-api.php:224-325 | the six request fields are merged into the log; with no client nothing is sent and None is returned; with a client exactly the specified select is sent and its outcome is read as `Interpret` says |
| `SolrPower.SolrPowerApi.Query` | includes/class-solrpower-api.php:215-222 | connects, and answers and logs as `master_query` does with the site's options |
| `SolrPower.CountOf` | includes/class-solrpower-api.php:373-380 | no answer counts 0, an answer counts its `numFound` |
| `SolrPower.StatSelectShape` | includes/class-solrpower-api.php:366-372 | the stat query is `post_type:<type>`, offset 0, count 1, no filters, sorted by score desc |
| `SolrPower.SolrPowerApi.FetchStat` | includes/class-solrpower-api.php:365-381 | returns the type's count, logs the stat request, sends at most its one select |
| `SolrPower.StatsForMeaning` | includes/class-solrpower-api.php:347-350 | the statistics have exactly the post types as keys, each mapped to its own count |
| `SolrPower.StatSelectsMeaning` | includes/class-solrpower-api.php:348-350 | a miss sends exactly one stat select per post type, in order, when a client exists, and none without one |
| `SolrPower.SolrPowerApi.FetchStats` | includes/class-solrpower-api.php:345-350 | the loop builds the specified statistics, sends the specified selects, and leaves the last type's request in the log |
| `SolrPower.SolrPowerApi.IndexStats` | includes/class-solrpower-api.php:340-356 | on a hit the cached map is returned and nothing is sent, logged or cached; on a miss the statistics are computed and stored under `solr_index_stats` in group `solr` for 300 seconds |
| `SolrPower.RepeatedIndexStats` | includes/class-solrpower-api.php:340-356 | a second call right after the first returns the identical map and sends no further query |
| `SolrPower.SolrPowerApi.PingServer` | includes/class-solrpower-api.php:126-145 | without a client nothing is sent or recorded; a successful ping records code 200; an HttpException records its code and itself |
| `Schema.Submit` | includes/class-solrpower-api.php:45-108 | an upload is issued exactly when the sanity message is falsy, the schema file exists and the certificate exists; otherwise the first failing check's message is returned; after an upload the message reflects its status |
| `Schema.CustomSchemaPreferred` | includes/class-solrpower-api.php:54-58 | a custom schema present under the uploads mount is the one sent |
| `Schema.UploadShape` | includes/class-solrpower-api.php:61-93 | the upload goes to port 449 with the client certificate, no peer verification and an XML content type, on the computed index path |
| `Schema.UploadMessageMeaning` | includes/class-solrpower-api.php:101-105 | status 200 gives `Schema Upload Success: 200` with no "Error"; any other status gives "Error" at offset 14, followed by the status in plain decimal (no leading zero) that reads back as the status |
| `Schema.LeadingErrorHidesNotice` | includes/class-solrpower-api.php:399 | a message beginning with "Error" raises no notice, since offset 0 is falsy |
| `SolrPower.SolrPowerApi.SubmitSchema` | includes/class-solrpower-api.php:45-108 | returns the message of `Submit`; the upload is sent only when `Submit` issues one |
| `SolrPower.SolrPowerApi.CheckForSchema` | includes/class-solrpower-api.php:389-411 | with the transient present, or with no hosting environment, nothing changes; otherwise it pings; it submits only when the last code is exactly 404, shows the notice as the offset test says, stores the client the ping built, and sets `schema_check` to "1" for 300 seconds |
| `SolrPower.RepeatedSchemaCheck` | includes/class-solrpower-api.php:390-407 | in the hosting environment a second check right after the first sends nothing, changes no code and shows no notice |
| `SolrPower.SolrPowerApi.constructor` | includes/class-solrpower-api.php:15-27 | a fresh object has an empty log, no client, no last code or error, and has sent nothing |
| `SolrPower.ObjectCache.Set` | includes/class-solrpower-api.php:352 | storing a value replaces the key's entry and keeps the others |
| `SolrPower.TransientStore.Set` | includes/class-solrpower-api.php:407 | setting a transient replaces its entry and keeps the others |

## Left out

- The singleton, the `admin_notices` hook registration and the global `get_solr()` helper (lines 9, 33-43, 414-421) are plumbing with no behaviour to state.
- `optimize` (lines 196-207) is fire-and-forget and swallows every error, so it has nothing to prove.
- The cURL details of the upload are not modelled: `fopen`/`fclose`, `filesize`, the transfer itself, and `wp_upload_dir`, whose result is unused. The upload is a recorded request whose status is an input.
- Solarium client construction, `ping`, `select` and `update` are not modelled. Their outcomes are inputs. `syslog` calls are not modelled.
- The HTML of the admin notice is not modelled; only whether it is shown.
- The `apply_filters` hooks (`solr_scheme`, `s4wp_connection_options`, `s4wp_solr`) are taken as the identity.
- The `solr_options`, `get_taxonomies`, `get_post_types`, `getenv`/`$_ENV`, `realpath`, `is_file`/`file_exists` and `sanity_check` lookups are inputs.
- `is_file` and `file_exists` both read one set of existing paths, so a directory at the schema path is not distinguished from a file.
- The cache and transient TTLs are stored but expiry is not simulated; an entry present is taken to be unexpired.
- Exceptions other than `HttpException` thrown by `ping` propagate in the source; they are not modelled.
- Solarium's exception for duplicate facet or filter keys (raised at lines 290 and 300, outside the `try`) is not modelled: no property is stated about key collisions.
- The PCRE `$` quirk that also accepts `"http\n"` as a scheme is not modelled.
- PHP falsiness of strings is modelled as "" or "0". `s4wp_facet_on_taxonomy` is modelled by the value `count()` gives for it. `s4wp_facet_on_custom_fields` is modelled as an optional list: absent when it is not an array.
- `array_merge` renumbers integer-like keys; log keys are modelled as plain strings, and key order is not kept.
- `Stats`: the array `index_stats` returns is ordered by post type; the model is a `map`, so that order is not kept (the keys and counts are).
- `numFound` is a natural number in every response. A response body without a `response` section (which the PHP code would read as null) is not modelled.
- The unused `$server` parameter of `query` is not modelled.
