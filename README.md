# Maven unit-test step, modelled in Dafny

This project models the unit-test step implementer for Maven in the tssc
pipeline framework. The step:

1. reads two configuration keys, `pom-file` and `fail-on-no-tests`;
2. checks that the pom exists;
3. looks up the `maven-surefire-plugin` entry and its `reportsDirectory` override in the pom;
4. runs `mvn clean test -f <pom>`;
5. classifies the outcome by what the reports directory holds.

It also models how the step finds the pom's XML namespace from the root tag.

Everything the step observes outside itself is an input, an `Environment`:

- whether the pom exists;
- the two pom lookups, as `Option<string>`;
- the directory of the pom's absolute path;
- how `mvn` exited;
- the directories present after the build, with their listings.

`RunStep` is a total function. It returns a `Run` with two parts:

- the external actions the step performed, in order (existence probe, pom lookups, Maven invocation, `isdir`, `listdir`);
- either the step's result dictionary or the error it raised.

Each error is tagged with the Python exception class it is raised as (`ValueError` or `RuntimeError`).

Modules:

- `Wrappers` (wrappers.dfy): `Option` and `Result`.
- `MavenConfig` (config.dfy): configuration values, the defaults and the required keys.
- `PomReference` (pom_reference.dfy): the element path of each reference and the namespace extraction.
- `MavenUnitTest` (maven_unit_test.dfy): the step itself.

Where the code and the module's own documentation differ, the model follows the code:

- The options record `pom-path` as the configured `pom-file` text verbatim. The module documentation (maven.py:49) calls it an absolute path.
- The no-tests result records `fail-on-no-tests` as the literal `False`, not the configured flag.
- The artifact path is `file://` followed by the resolved directory as it is. When the pom's override is a relative path, so is the artifact path.
- `fail_on_no_tests is not True` tolerates every value except the boolean `True`. That includes the string `"true"`, the integer `1` and null. Configuration values are therefore a small variant type (`Value`), not a boolean.
- The namespace pattern `{(.*?)}` uses `.`, which does not match a newline. A newline between a `{` and the next `}` stops that match, and the scan moves on to the next `{`. Read informally as "the text between the first `{` and the first `}` after it", the extraction agrees with the code only for tags without newlines (`NamespaceBetweenFirstBraces`). `NewlineStopsMatch` shows the difference.

## Model

| member | source | states |
|---|---|---|
| `MavenConfig.RequiredKeysHaveDefaults` | tssc/step_implementers/unit_test/maven.py:71-79 | Every required key has a non-null default. A configuration layered over the defaults therefore holds every required key, whatever the overrides. The defaults alone can run the step, with `fail-on-no-tests` exactly `True`. |
| `PomReference.ElementPath` | tssc/step_implementers/unit_test/maven.py:220-231 | Both lookups query paths inside the surefire plugin's entry under build/plugins. The reportsDirectory path extends it with `maven:configuration/maven:reportsDirectory`. The two paths differ, because only the plugin lookup has exactly the plugin entry's length. |
| `PomReference.CloseFrom` | tssc/step_implementers/unit_test/maven.py:216 | A lazy `.*?}` body begun at k is closed at the first `}`, with no `}` or newline before it. It returns none when no `}` can be reached without crossing a newline. |
| `PomReference.SearchFrom` | tssc/step_implementers/unit_test/maven.py:216 | The regex scan from position i returns the leftmost match of `{(.*?)}` starting at or after i. No match starts between i and it. It returns none when no match starts at or after i. |
| `PomReference.ExtractNamespace` | tssc/step_implementers/unit_test/maven.py:214-217 | The namespace is the group captured by the leftmost match of `{(.*?)}` in the root tag. It is `""` when the pattern matches nowhere. |
| `PomReference.MatchEndIsUnique` | tssc/step_implementers/unit_test/maven.py:216 | A match begun at a given `{` has exactly one possible end, because the lazy quantifier stops at the first `}`. |
| `PomReference.NamespaceBetweenFirstBraces` | tssc/step_implementers/unit_test/maven.py:216-217 | For a tag without newlines, the namespace is the text between the first `{` and the first `}` after it. |
| `PomReference.NamespaceEmptyWithoutBracePair` | tssc/step_implementers/unit_test/maven.py:216-217 | When no `}` follows any `{`, the namespace is `""`. |
| `PomReference.NamespaceOfQualifiedTag` | tssc/step_implementers/unit_test/maven.py:214-217 | Round trip with ElementTree's `{uri}local` tag form: extraction gives back `uri` whenever `uri` holds no `}` and no newline, whatever the local name. |
| `PomReference.NewlineStopsMatch` | tssc/step_implementers/unit_test/maven.py:216 | For `{a\n}{b}` the namespace is `b`. The newline defeats the first brace pair. |
| `MavenUnitTest.StepError.Message` | tssc/step_implementers/unit_test/maven.py:149-171 | The text of a missing-pom error is its fixed prefix followed by the configured pom path verbatim. The text of a Maven failure is its fixed prefix followed by the error text the process library reports. |
| `MavenUnitTest.JoinPath` | tssc/step_implementers/unit_test/maven.py:159-161 | Joining a directory with a relative path (the only kind the step joins) extends the directory. It inserts one `/` exactly when the directory is non-empty and does not already end in `/`. |
| `MavenUnitTest.ResolveReportsDir` | tssc/step_implementers/unit_test/maven.py:155-161 | The inspected directory is the override text verbatim when the lookup finds one. Otherwise it is the pom's directory followed by `target/surefire-reports`, with one separator between them (just `target/surefire-reports` for an empty directory). |
| `MavenUnitTest.InspectReportsDir` | tssc/step_implementers/unit_test/maven.py:175-176 | The directory is reported missing exactly when it is not a directory. Otherwise the step sees its listing. `isdir` comes first and is called once. `listdir` is called once on an existing directory and never otherwise. |
| `MavenUnitTest.Classify` | tssc/step_implementers/unit_test/maven.py:173-208 | A missing or empty reports directory with `fail-on-no-tests` exactly `True` raises `RuntimeError` with no result. In every other case the step succeeds. With no reports, the success has no `report-artifacts` key and its options are exactly {pom-path: configured pom, fail-on-no-tests: False}. With reports, its options are exactly {pom-path: configured pom} and it has one artifact whose path is `file://` followed by the directory. |
| `MavenUnitTest.SetupTrace` | tssc/step_implementers/unit_test/maven.py:145-169 | The setup is four actions in order: the pom existence probe, the surefire-plugin lookup, the reportsDirectory lookup, then one Maven invocation with the configured pom. Maven appears only at the fourth position, so it is invoked once and not retried. |
| `MavenUnitTest.RunStep` | tssc/step_implementers/unit_test/maven.py:130-209 | The existence probe comes first. A missing pom raises `ValueError` after that probe alone. A missing surefire plugin raises `ValueError` before the override lookup and before Maven runs. Maven runs, with `clean test -f <pom>`, exactly when both checks pass. A non-zero exit raises `RuntimeError` without inspecting any directory. Once both checks pass, the run begins with `SetupTrace` and only directory probes follow it. After a zero exit the resolved reports directory is always probed right after Maven, and it is listed exactly when it exists. No other directory is inspected. After a zero exit the outcome is `Classify` of that directory. The step succeeds exactly when every check passes and there are reports or no-tests is tolerated. |
| `MavenUnitTest.MissingPomIgnoresEverythingElse` | tssc/step_implementers/unit_test/maven.py:145-149 | With the pom missing, the run is the same whatever the flag and whatever else the environment holds. |
| `MavenUnitTest.MavenFailureIgnoresReports` | tssc/step_implementers/unit_test/maven.py:163-171 | A failing Maven run gives the same run whatever the directories hold. |
| `MavenUnitTest.OnlyBooleanTrueFailsOnNoTests` | tssc/step_implementers/unit_test/maven.py:175-192 | With the reports directory missing, the step fails exactly when the flag is the boolean `True`. The string `"true"` and the integer `1` are tolerated. |

## Left out

- Running `mvn` and streaming its output to standard output (maven.py:164-169): external process I/O. The model keeps only the exit outcome and the error text.
- A missing `mvn` executable: it raises a different exception from the process library, which the step does not catch. The model has only zero and non-zero exits.
- `os.path.exists`, `os.path.isdir`, `os.listdir` and `os.path.abspath`: filesystem queries that depend on the process's working directory. The model takes them as inputs: a boolean, a map from directory path to listing, and the pom's absolute directory.
- ElementTree parsing and the evaluation of the element paths (maven.py:215, 220-234): library query semantics. Each lookup is an `Option<string>` input. A malformed pom raises a parse error from inside the lookup; the model does not include it.
- A None from the plugin lookup when the plugin is present (maven.py:234): the plugin's element path ends in `/`, so `find` selects the plugin entry's first child element, and the lookup returns that child's text, which can be None. The model treats the lookup as an abstract option.
- Reference kinds other than the two the step uses: the source leaves its element path unbound for them.
- Merging configuration tiers and validating required keys: this belongs to the framework's base step implementer, which is not part of this model. Only the constants are modelled.
- RunStep: requires `pom-file` to hold text. A non-string value (None, a list, or an integer, which `os.path.exists` treats as a file descriptor) is outside the model.
- Registration of the step implementer in the global factory (maven.py:237) and the `step_name` getter: global registry side effects and a constant defined elsewhere.
