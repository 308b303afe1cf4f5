# VerdictDB release naming and query aliases, modelled in Dafny

This project models two small parts of VerdictDB.

**The release script** (`release/release_jars.py`) is mostly shell, git and
upload plumbing. The model covers the deterministic pieces inside it:

- the version string `major.minor.build`, the CLI archive and staging-folder
  names, and the jar names;
- the upload plan (spark jar, jdbc jar, CLI archive) and the scp target
  folder `major.minor`;
- the rewrite of the documentation's `conf.py`, as a loop over its lines;
- the update of the website's `_config.yml`, as a map from keys to values;
- `call_with_failure`, which turns an exit status into a normal return or a
  raised error.

**`Alias`** (`core/.../datatypes/Alias.java`) is the value the query rewriter
uses to remember a column's user-facing name. It is modelled as the datatype
`Aliases.Alias`. Its accessors `originalName()`, `aliasName()` and
`autoGenerated()` are the datatype's fields. The class-wide counter
`aliasIndex` is the field of an `AliasGenerator` object. `genAlias` bumps it
as a Java `int`, so it wraps from 2^31-1 to -2^31.

Modules:

- `Wrappers`: `Option` and `Outcome`.
- `TextFormat`: decimal text of an `int`, which is what Python's `%s`/`%d`
  and Java's `%d` print. Also its parser, a split at the first separator, a
  prefix test, and a basename.
- `JavaString`: Java's `String.compareTo` on `seq<char>`.
- `Aliases`: the `Alias` value, its `equals` and `compareTo`, and the counter.
- `ReleaseJars`: the release script's pieces.

The proved properties fall into four groups:

- **Round trips.** Version strings, `major.minor` folders, CLI archive names
  and generated alias names all parse back to what produced them, so each is
  injective.
- **Doc rewrite.** It keeps every line in place. It rewrites every line that
  starts with `version = ` or `release = `, not only the first one. Running
  it twice gives the same result as running it once.
- **Site update.** It sets exactly five keys and keeps all the others. Each
  download link names one of the uploaded files, in the folder the files are
  uploaded to.
- **Aliases.** `equals` is an equivalence that ignores the generated flag.
  `compareTo` is zero exactly when `equals` holds, and swapping the
  arguments negates it. Its strict and non-strict orders are transitive.
  Aliases generated since a reset have distinct names up to 2^32 calls; after
  that the wrapped counter repeats a name.

The site update keeps two oddities of the script as written, and
`ReleaseJars.SiteBlockNames` proves both:

- The JDBC block's `name` is the spark jar's name (`verdict-spark-lib-V.jar`).
- The shell block's `name` ends in `.jar`, while its `url` and the uploaded
  archive end in `.zip`.

## Model

| member | source | states |
|---|---|---|
| ReleaseJars.VersionStringRoundTrip | release/release_jars.py:18-19 | the version string is the three numbers in decimal joined by single dots: splitting it at the dots and reading the numbers gives back the version |
| ReleaseJars.VersionStringInjective | release/release_jars.py:18-19 | two versions have the same version string exactly when they are the same version |
| ReleaseJars.MajorMinorRoundTrip | release/release_jars.py:197-199 | the `major.minor` folder reads back as (major, minor), and the version string is that folder plus `.build` |
| ReleaseJars.CliNamesAgree | release/release_jars.py:21-33 | the CLI archive name is the staging folder name plus `.zip`, does not depend on the platform argument, and yields its version when parsed |
| ReleaseJars.GetPathsToFilesToUpload | release/release_jars.py:159-176 | the plan built by appending is exactly three entries, in order: `jars_dir/verdict-spark-lib-V.jar`, `jars_dir/verdict-jdbc-V.jar`, the relative CLI archive name |
| ReleaseJars.UploadPlanFileNames | release/release_jars.py:159-166 | the file names of the three plan entries are the spark jar, the jdbc jar and the CLI archive of the version |
| ReleaseJars.UploadTargetFolder | release/release_jars.py:197-200 | two versions get the same scp target `yongjoop@<base>/M.m/` exactly when they share major and minor |
| ReleaseJars.CallWithFailure | release/release_jars.py:178-181 | the call fails, with the script's message, exactly when the return code is non-zero |
| ReleaseJars.UploadFile | release/release_jars.py:190-202 | uploading a path fails exactly when `scp path yongjoop@<base>/M.m/` exits non-zero |
| ReleaseJars.UpdateDocLines | release/release_jars.py:138-149 | the loop over conf.py's lines produces the line-by-line rewrite of the file for the version string |
| ReleaseJars.RewriteDocShape | release/release_jars.py:141-149 | the rewrite has as many lines as it reads; a line with neither prefix stays unchanged at its position; every line starting `version = ` becomes `version = u'V'\n` and every line starting `release = ` becomes `release = u'V'\n` |
| ReleaseJars.RewriteDocIdempotent | release/release_jars.py:141-149 | rewriting an already rewritten file with the same version changes nothing |
| ReleaseJars.UpdateSiteConfig | release/release_jars.py:63-115 | the updated mapping has the old keys plus `url`, `version`, `verdict_spark`, `verdict_jdbc`, `verdict_shell`, every other key keeps its value, and the five keys get the script's values |
| ReleaseJars.SiteVersionField | release/release_jars.py:69-70 | the site's `version` field is a string that reads back as the released version |
| ReleaseJars.SiteLinksPointAtUploads | release/release_jars.py:63-115 | each block's url is `.../files/M.m/<file>/download`, where `<file>` is the file name of the matching upload-plan entry (spark jar, jdbc jar, CLI archive) |
| ReleaseJars.RemoteFolderAgrees | release/release_jars.py:63-200 | the `M.m` folder in the download links is the folder of the scp target `yongjoop@<base>/M.m/` |
| ReleaseJars.SiteBlockNames | release/release_jars.py:97-114 | the jdbc block's name equals the spark block's name and is not the jdbc jar; the shell block's name is not the uploaded `.zip` archive |
| Aliases.NewAlias | core/src/main/java/edu/umich/verdict/datatypes/Alias.java:39-43 | a constructed alias is not generated and stores both names unchanged |
| Aliases.ProperNameOfNewAlias | core/src/main/java/edu/umich/verdict/datatypes/Alias.java:73-83 | a constructed alias displays its alias name, which is also its `toString` |
| Aliases.Alias.ProperName | core/src/main/java/edu/umich/verdict/datatypes/Alias.java:73-78 | the displayed name is the original name for a generated alias and the alias name otherwise |
| Aliases.Alias.ToString | core/src/main/java/edu/umich/verdict/datatypes/Alias.java:80-83 | `toString` is the alias name |
| Aliases.Inc32 | core/src/main/java/edu/umich/verdict/datatypes/Alias.java:50 | `aliasIndex++` yields a Java `int` one more than before modulo 2^32 |
| Aliases.AliasNameRoundTrip | core/src/main/java/edu/umich/verdict/datatypes/Alias.java:51 | `v{depth}_{index}` reads back as (depth, index) |
| Aliases.AliasNameInjective | core/src/main/java/edu/umich/verdict/datatypes/Alias.java:51 | two generated alias names are equal exactly when depth and index are both equal |
| Aliases.AliasGenerator.constructor | core/src/main/java/edu/umich/verdict/datatypes/Alias.java:32 | the counter starts at 0 with nothing generated |
| Aliases.AliasGenerator.ResetAliasIndex | core/src/main/java/edu/umich/verdict/datatypes/Alias.java:45-47 | after a reset the counter is 0 and nothing counts as generated since |
| Aliases.AliasGenerator.GenAlias | core/src/main/java/edu/umich/verdict/datatypes/Alias.java:49-55 | the counter is incremented as a Java `int`; the result is generated, keeps the given original name and is named `v{depth}_{new counter}`; it is appended to the aliases generated since the reset |
| Aliases.AliasGenerator.GenDerivedTableAlias | core/src/main/java/edu/umich/verdict/datatypes/Alias.java:57-59 | the same as `genAlias` with original name `subquery` |
| Aliases.KthIssuedName | core/src/main/java/edu/umich/verdict/datatypes/Alias.java:45-55 | for k up to 2^31-1, the k-th alias generated after a reset is named `v{depth}_{k}` |
| Aliases.IssuedNamesDistinct | core/src/main/java/edu/umich/verdict/datatypes/Alias.java:49-55 | within 2^32 calls after a reset, any two generated aliases have different alias names and are not `equals` |
| Aliases.IssuedNamesRepeatAfterWrap | core/src/main/java/edu/umich/verdict/datatypes/Alias.java:50-51 | call 2^32+1 after a reset, at the same depth, repeats the alias name of call 1 |
| Aliases.EqualsIgnoresFlag | core/src/main/java/edu/umich/verdict/datatypes/Alias.java:91-102 | `equals` holds exactly when the two aliases agree once the generated flag is cleared, flipping the other's flag does not change it, and it is false for a non-alias argument |
| Aliases.EqualsIsEquivalence | core/src/main/java/edu/umich/verdict/datatypes/Alias.java:91-102 | `equals` on aliases is reflexive, symmetric and transitive |
| Aliases.CompareToZeroIffEquals | core/src/main/java/edu/umich/verdict/datatypes/Alias.java:91-111 | `compareTo` returns 0 exactly when `equals` holds |
| Aliases.CompareToLexicographic | core/src/main/java/edu/umich/verdict/datatypes/Alias.java:104-111 | `a < b` exactly when a's original name is smaller, or the original names are equal and a's alias name is smaller |
| Aliases.CompareToAntisymmetric | core/src/main/java/edu/umich/verdict/datatypes/Alias.java:104-111 | `b.compareTo(a) == -a.compareTo(b)`, so the signs are opposite |
| Aliases.CompareToTransitive | core/src/main/java/edu/umich/verdict/datatypes/Alias.java:104-111 | `a < b` and `b < c` give `a < c` |
| Aliases.CompareToAtMostTransitive | core/src/main/java/edu/umich/verdict/datatypes/Alias.java:104-111 | `a <= b` and `b <= c` give `a <= c` |
| JavaString.CompareZeroIffEqual | core/src/main/java/edu/umich/verdict/datatypes/Alias.java:106-109 | `String.compareTo` is 0 exactly on equal strings |
| JavaString.CompareAntisymmetric | core/src/main/java/edu/umich/verdict/datatypes/Alias.java:106-109 | swapping the strings negates `String.compareTo` |
| JavaString.CompareTransitive | core/src/main/java/edu/umich/verdict/datatypes/Alias.java:106-109 | the strict order of `String.compareTo` is transitive |

## Left out

- Shell commands run through `call` (`rm`, `mkdir`, `cp`, `zip`, `scp`, `ssh`): they are external processes. Only the scp argument vector and the exit-status check are modelled. The exit status is a parameter: a plain return code for `CallWithFailure`, and a function from argument vector to status for `UploadFile`.
- `zip_command_line_interface` beyond its names: which files are copied and how they are archived is external process work.
- `remove_cli_zip` and `create_sourceforge_dir_if_not_exists`: file globbing and ssh, which are external. The second is also never called.
- Git pull, commit and push, the swallowed `GitCommandError`, and the `push_to_git` / `getpass` identity gate: these are calls into a foreign library and depend on the process identity.
- YAML loading and dumping, and the generated header line: the serialiser is not part of this model. The configuration is an abstract map from string keys to values. A file that does not load as a mapping is not modelled.
- Reading and writing `conf.py`, and joining the lines back into one text: file I/O. The model works on the list of lines as read, each with its line terminator.
- `os.path.realpath` and the script directory: the directory is a parameter. `os.path.join` is modelled for two components. `current_version()` comes from a module that is not part of this model, so the version is a parameter.
- The top-level run sequence and the commented-out per-platform loops: orchestration and dead code.
- `Alias.hashCode`: object-identity hashing, which a value model cannot express. It is also inconsistent with `equals`.
- Thread safety of the static counter: the model is sequential. A single `AliasGenerator` object stands for the class-wide counter.
- `Aliases.Alias.Equals`, `Aliases.Alias.CompareTo`: names are assumed non-null. The null-pointer exceptions Java throws for null names are not modelled.
- `JavaString.Compare`: Java compares UTF-16 code units, and Dafny's `char` is a Unicode scalar value. For characters outside the Basic Multilingual Plane the sign of the model's result can differ from Java's.
- `Aliases.AliasNameFor`: models `String.format("%d")` with ASCII digits. Locale-specific digit shapes are not modelled.
- `ReleaseJars.VersionString`: the version fields are modelled as integers. Python's `%s` would also print other kinds of value.
- `ReleaseJars.UpdateDocLines`: the code rewrites every matching line, not only the first. The model follows the code.
