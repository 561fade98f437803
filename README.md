# Terraform generator core, in Dafny

This project models the three stages of `backend/app.py` that turn a free-text
infrastructure description into Terraform code:

1. **Extraction** (`extract_infrastructure_from_text`). The description is
   lower-cased. The provider markers are tried in a fixed order. One
   first-match-and-stop scan runs per keyword list (servers, databases, load
   balancers), and an any-match test decides the security level. The result is a
   record holding a provider and five counts. The server count is read from the
   first run of digits in the original text.
2. **Generation** (`generate_terraform_code`). Fixed templates are appended to a
   growing string: a header, the VPC and subnet when networks are asked for, one
   security-group block per group, one instance block per server, one database
   block per database, then two outputs. Block `i` is numbered `i+1`. Every
   instance and database block references security group `main_1`.
3. **Security rule** (`apply_security_rule`, configured by `SECURITY_RULE`).
   The rule checks whether the tag names `Environment` and `SecurityLevel` both
   occur in the text. If either is missing, it puts a warning comment and a blank
   line in front of the text.

Modules:

- `Text`: substring search, case mapping, digit runs and decimal printing.
- `Extractor`: the record, the specification function `Described`, and the
  imperative `Extract`.
- `Generator`: the templates as line sequences, the imperative `Generate` with
  one loop per repeated kind, and the facts about the document.
- `Compliance`: the rule and the whole request pipeline.

`Extract` and `Generate` are methods that mirror the source's loops. Each is
proved equal to a specification function (`Described` and `Document`), and the
lemmas state the properties of those functions. The generated text is the
rendering of a line sequence (`DocumentRendered`). Structural facts are stated
on that line sequence: the resource headers the document declares (lines starting
`resource "`), the security-group references (lines starting
`  vpc_security_group_ids = [`), and the outputs (lines starting `output "`).

## Model

| member | source | states |
|---|---|---|
| Text.ContainsIff | backend/app.py:26-31 | Python's `pat in s` holds exactly when `pat` occurs at some position of `s` |
| Text.LowerIdempotent | backend/app.py:22 | lower-casing an already lower-cased text changes nothing |
| Text.DecimalRoundTrip | backend/app.py:137-138 | reading back the printed block number `{i+1}` with `int` gives the number |
| Text.DecimalInjective | backend/app.py:137-138 | different block numbers print as different digit strings |
| Text.DigitRunsFirst | backend/app.py:48-49 | `re.findall(r'\d+', s)` is empty exactly when `s` has no digit; otherwise its first match is the first maximal digit run of `s` |
| Text.ContainsLower | backend/app.py:22-46 | an occurrence of a pattern in a text is an occurrence of the lower-cased pattern in the lower-cased text |
| Text.DigitRunsLower | backend/app.py:22-48 | lower-casing moves and changes no digit, so `findall` finds the same numbers in the text and in its lower-cased form |
| Extractor.Extract | backend/app.py:17-71 | the imperative extractor (ordered provider tests, three first-match-and-break loops, the any-match security test) returns exactly `Described(description)` |
| Extractor.FirstMatch | backend/app.py:44-64 | one `for keyword in ...: if keyword in description_lower: ... break` scan stops on a match exactly when some keyword of the list occurs |
| Extractor.DetectProvider | backend/app.py:25-31 | the provider is azure exactly when "azure" occurs, and aws exactly when none of the four markers occurs |
| Extractor.RequestedServers | backend/app.py:48-49 | `int(numbers[0]) if numbers else 1`: 1 when the text has no digit, otherwise the value of the first maximal digit run |
| Extractor.Described | backend/app.py:22-71 | the record the extractor builds: databases and load_balancers are at most 1, security_groups is 1 or 2, networks is 1 |
| Extractor.NoKeywordsGiveDefault | backend/app.py:25-41 | with no provider marker and no keyword of any list, the record is aws with 0 servers, 0 databases, 1 network, 0 load balancers and 1 security group |
| Extractor.ProviderPrecedence | backend/app.py:25-31 | azure beats gcp/google, which beats openstack; aws results exactly when no marker occurs |
| Extractor.ServerCountRule | backend/app.py:44-50 | servers is 0 without a server keyword; with one it is 1 when the original text has no digit, otherwise the value of the first maximal digit run |
| Extractor.CountsInRange | backend/app.py:34-69 | databases is 1 iff a database keyword occurs, else 0; load_balancers likewise for its list; security_groups is 2 iff a security keyword occurs, else 1; networks is 1 |
| Extractor.KeywordsLowerCase | backend/app.py:26-67 | every provider marker and keyword is its own lower-case form, so each can match the lower-cased text |
| Extractor.MentionsIgnoringCase | backend/app.py:22-68 | a keyword written in the description in any mix of upper and lower case is detected |
| Extractor.DescribedIgnoresCase | backend/app.py:22-49 | the record is the same for a description and for its lower-cased form |
| Generator.AppendBlocks | backend/app.py:136-173 | one `for i in range(count)` loop appends blocks 1 .. count of its kind, in increasing order, to the text built so far |
| Generator.Generate | backend/app.py:73-235 | the imperative generator yields `Document(cfg)`: header, network section only when networks > 0, the security-group, instance and database loops, then the outputs |
| Generator.Document | backend/app.py:83-235 | the generated text: it begins with the rendered header and ends with the rendered outputs |
| Generator.DocumentLines | backend/app.py:83-233 | the document's line sequence, section by section: it begins with the header lines and ends with the output lines |
| Generator.DocumentRendered | backend/app.py:83-233 | the text built by appending section after section is the rendering of the document's line sequence |
| Generator.BlockMarkers | backend/app.py:137-222 | each repeated block opens exactly one resource, its own numbered header, and declares no output; an instance or database block holds exactly one `main_1` reference, a security-group block none |
| Generator.NetworkMarkers | backend/app.py:105-133 | the network section declares the VPC and then the subnet, and holds no reference and no output |
| Generator.OutputMarkers | backend/app.py:224-233 | the outputs section declares `vpc_id` then `public_subnet_id`, and opens no resource |
| Generator.BlocksResources | backend/app.py:136-138 | blocks 1 .. count of a kind declare the headers numbered 1 .. count, in order |
| Generator.BlocksReferences | backend/app.py:176-222 | count instance or database blocks hold count references to group `main_1`; security-group blocks hold none |
| Generator.BlocksOutputs | backend/app.py:136-222 | repeated blocks declare no output |
| Generator.DocumentResources | backend/app.py:83-233 | the document declares, in this order: the VPC and the subnet (only when networks > 0), groups `main_1` .. `main_<security_groups>`, instances `server_1` .. `server_<servers>`, databases `database_1` .. `database_<databases>`, and no other resource |
| Generator.DocumentReferences | backend/app.py:176-222 | the document holds exactly servers + databases security-group references, each naming group `main_1`, whatever security_groups is |
| Generator.DocumentOutputs | backend/app.py:225-233 | the document declares exactly the outputs `vpc_id` and `public_subnet_id`, in that order |
| Generator.BlockHeaderInjective | backend/app.py:136-197 | two blocks of one kind with different numbers declare different resources |
| Generator.HeadersDistinct | backend/app.py:136-197 | no two repeated blocks of a kind declare the same resource name |
| Generator.ReferenceNamesFirstGroup | backend/app.py:136-209 | the reference in instance and database blocks names the same resource type and name that security group 1 declares |
| Generator.DocumentDeclaresFirstGroup | backend/app.py:136-222 | when security_groups >= 1, the document declares group `main_1`, the group the references name |
| Compliance.WarningCompliant | backend/app.py:244-252 | the warning names both required tags, so the warning alone passes the rule's test |
| Compliance.WarningLead | backend/app.py:252 | the words of the warning before the tag list: they start the comment with `#` and hold no line break |
| Compliance.Warning | backend/app.py:244-252 | the warning built from `SECURITY_RULE`'s tags: a single `#` comment line with no line break inside, followed by a blank line |
| Compliance.ApplySecurityRule | backend/app.py:237-254 | the result equals the input exactly when both "Environment" and "SecurityLevel" occur, and always ends with the input |
| Compliance.RuleChangesOnlyNonCompliant | backend/app.py:247-254 | the rule returns its input unchanged iff both tag names occur; otherwise it returns the warning, a blank line, then the input |
| Compliance.RuleResultCompliant | backend/app.py:247-254 | whatever the input, the rule's result contains both tag names |
| Compliance.RuleIdempotent | backend/app.py:237-254 | applying the rule twice gives the same text as applying it once |
| Compliance.NetworkCompliant | backend/app.py:106-131 | the VPC and subnet tags make the network section contain both tag names |
| Compliance.GeneratedUnchanged | backend/app.py:105-254 | for any record with networks > 0, the rule leaves the generated text unchanged |
| Compliance.Pipeline | backend/app.py:266-272 | extraction, generation, then the rule give exactly `Document(Described(description))`, so the rule never fires on extracted input |

## Left out

- HTTP handling is not modelled: the Flask app, CORS, the `/generate` and `/health` routes, JSON parsing, the 400 answer for an empty description and the 500 answer for exceptions (backend/app.py:1-8, 256-295).
- Extractor.Extract: ignores the interpreter's limit on the number of digits `int()` converts from a string (4300 by default in recent CPython), past which `int(numbers[0])` raises and the request ends in a 500; the model returns the full value of any digit run.
- Writing `main.tf` to disk (backend/app.py:274-278) is file I/O and is not modelled.
- Text.Lower follows Python's `str.lower` only on ASCII letters and on the Latin-1 capitals U+00C0..U+00DE. Other characters are left as they are.
- Text.Upper maps only ASCII letters, which covers every provider name it is applied to.
- Text.DigitRuns treats only `'0'..'9'` as digits, while Python's `\d` also matches other Unicode decimal digits.
- The `.get(key, default)` fallbacks of the generator (backend/app.py:77-81) are not modelled: the record datatype always has every field.
- load_balancers is extracted but the generator never reads it, so no block depends on it.
- Generator.DocumentResources, Generator.DocumentReferences and Generator.DocumentOutputs count marker lines of the document's line sequence rather than substring occurrences in the raw text. `Generator.DocumentRendered` links that line sequence to the text. The model does not prove that no template line holds a line break, so it does not show that the elements of the sequence are exactly the lines of the text.
- Provider names reach the templates only through the four-valued `Provider` type. The source would also accept an arbitrary provider string from another caller.
