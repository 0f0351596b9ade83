# trivy-plugin: report resolver and argument splitter

A Dafny model of package `common` of the trivy-plugin command-line plugin.

- **Resolver** (`resolver.dfy`) models how a trivy JSON report is read. The plugin first decodes the file strictly, with unknown fields rejected, into the flat report shape. If the decoder's error message starts with `json: unknown field`, `parseJsonStrict` turns the error into the sentinel `ErrorJsonUnknownField`. Only on that sentinel does `ReadReport` decode the same file a second time, into the Kubernetes-aggregated shape. `convertK8sReportToReport` then flattens that shape: every vulnerability group's results come first, in order, then every misconfiguration group's. Every other error is returned behind the prefix `failed to read report `.
- **CommandLine** (`commandline.dfy`) models `IsHelp` and `RetrievePluginArguments`. `IsHelp` asks whether `--help` or `-h` appears in the argument list. `RetrievePluginArguments` scans the list with an index. A recognised flag takes the next element as its value and that element is skipped. A flag in last position gets `""`. A later occurrence of a flag overrides an earlier one. Every other element is collected, and the first collected element (the program name) is dropped.
- **Wrappers** (`wrappers.dfy`) holds the `Result` datatype that stands for Go's `(value, error)` pairs.

The JSON decoder is a function-typed parameter `seq<byte> -> Result<T, string>`: it returns the decoded value or the decoder's error message. A scan result is an opaque type parameter `R`. Opening the file is a parameter `OpenResult` (the bytes, or the open error's message). The process's argument list (`os.Args`) is an explicit parameter.

`ReadReport` and `parseJsonStrict` are pure branching on the decode outcome, so they are functions. `convertK8sReportToReport` and `RetrievePluginArguments` are loops that append to accumulators, so they are methods with loop invariants. Each method is proved equal to a specification function (`Flatten`; `Options` and `PassThrough` over the scan `Tokens`), and the lemmas state what the source promises about those functions.

`ReadReport` formats errors with `%v`, not `%w` (pkg/common/common.go:38,46). Its error holds only a message, so the model returns a string.

## Model

| member | source | states |
|---|---|---|
| `Resolver.HasPrefix` | pkg/common/common.go:74 | true exactly when the message is at least as long as the prefix and starts with it |
| `Resolver.ParseJsonStrict` | pkg/common/common.go:67-81 | success exactly when the decoder succeeds, with the decoded value unchanged; the sentinel exactly when the decoder's message starts with `json: unknown field`; any other error keeps the decoder's message; the error's message is always a prefix of the decoder's message |
| `Resolver.ReadAndParseJson` | pkg/common/common.go:50-64 | an open failure is returned with its message and is never the unknown-field sentinel, whatever the message says; an opened file is decoded strictly |
| `Resolver.ReadReport` | pkg/common/common.go:28-47 | open failure: that error; primary success: the primary report unchanged; primary failure other than an unknown field: that error; unknown field: the flattened aggregated report on success, else the aggregated attempt's error (an unknown field there is reported as `json: unknown field` only), always behind `failed to read report ` |
| `Resolver.PrimaryDecidesAlone` | pkg/common/common.go:32-39 | when the primary attempt succeeds or fails with a non-sentinel error, any other aggregated decoder gives the same result, so the aggregated decode is never consulted |
| `Resolver.FallbackIgnoresPrimaryError` | pkg/common/common.go:41-46 | after an unknown-field failure the primary attempt's error does not reach the result: two primary decoders that both hit the sentinel give the same result |
| `Resolver.ConvertK8sReportToReport` | pkg/common/common.go:84-96 | the two loops produce the vulnerability groups' results followed by the misconfiguration groups' results, as many as all groups hold together |
| `Resolver.ConcatAppend` | pkg/common/common.go:86-91 | concatenating the results of two joined lists of groups equals concatenating each list and joining the results |
| `Resolver.ConcatLength` | pkg/common/common.go:86-91 | the concatenation holds exactly the total number of results of the groups, so nothing is dropped or added |
| `Resolver.ConcatAt` | pkg/common/common.go:86-91 | the j-th result of group i sits at the offset of the groups before it plus j, so nothing is reordered |
| `Resolver.ConcatMembership` | pkg/common/common.go:86-91 | a result is in the concatenation exactly when some group holds it |
| `Resolver.FlattenLength` | pkg/common/common.go:84-95 | the flattened report's length is the sum of the lengths of all vulnerability and misconfiguration groups |
| `Resolver.FlattenVulnerabilityAt` | pkg/common/common.go:86-88 | each vulnerability result appears at its group's offset plus its own index, in the leading part of the flattened report |
| `Resolver.FlattenMisconfigurationAt` | pkg/common/common.go:89-91 | each misconfiguration result appears after all vulnerability results, at its group's offset plus its own index |
| `Resolver.FlattenMembership` | pkg/common/common.go:84-95 | a result is in the flattened report exactly when some vulnerability or misconfiguration group holds it |
| `Resolver.FlattenExample` | pkg/common/common.go:84-95 | groups `[V1{r1, r2}, V2{r3}]` and `[M1{r4}]` flatten to `[r1, r2, r3, r4]` |
| `CommandLine.Contains` | pkg/common/common.go:146 | `slices.Contains` is true exactly when some element equals the value searched for |
| `CommandLine.IsHelp` | pkg/common/common.go:23-25 | true exactly when some argument is `--help` or `-h` |
| `CommandLine.RetrievePluginArguments` | pkg/common/common.go:142-158 | the index loop returns the flag map and the pass-through list of the scan, minus its first element; every key is a recognised flag; no element of the rest is one; the rest is shorter than the argument list |
| `CommandLine.TokensSound` | pkg/common/common.go:145-155 | each token of the scan is true to the list: a flag token stands on a recognised flag and holds the next element, or `""` when the flag is last; a plain token stands on an unrecognised element |
| `CommandLine.TokensContiguous` | pkg/common/common.go:145-152 | the scan starts at the first element; each token starts where the previous one ends, so a flag's value is skipped and nothing else is; the last token ends past the list |
| `CommandLine.TokensLength` | pkg/common/common.go:145-156 | the scan yields at most one token per element |
| `CommandLine.OptionsKeys` | pkg/common/common.go:146-152 | a name is a key of the flag map exactly when some token is a flag with that name |
| `CommandLine.OptionsLastWins` | pkg/common/common.go:147-151 | a repeated flag keeps the value of its last occurrence |
| `CommandLine.OptionsAvailable` | pkg/common/common.go:146-151 | every key of the flag map is in `availableArguments` |
| `CommandLine.OptionValue` | pkg/common/common.go:147-151 | the value of a flag is the element after its last occurrence in the scan, or `""` when that occurrence is the last element |
| `CommandLine.PassThroughIsPlain` | pkg/common/common.go:153-155 | an element is passed through exactly when a plain token of the scan holds it |
| `CommandLine.PassThroughAt` | pkg/common/common.go:153-155 | the order of the arguments is kept: the argument of each plain token sits in the pass-through list right after the arguments of the plain tokens before it |
| `CommandLine.PassThroughNotAvailable` | pkg/common/common.go:146-155 | no argument passed through is in `availableArguments` |
| `CommandLine.PassThroughLength` | pkg/common/common.go:153-155 | the pass-through list has at most one element per token |
| `CommandLine.ProgramNameCollected` | pkg/common/common.go:154-157 | when the first element is not a recognised flag, it is the first element collected, so the slice `trivyCommand[1:]` cannot panic and drops exactly the program name |
| `CommandLine.SplitExample` | main.go:23 | with the plugin's two flags, `trivy-plugin image --plugin-output out.json alpine` maps `--plugin-output` to `out.json` and passes `image alpine` on |

## Left out

- The JSON decoding itself (`encoding/json` with `DisallowUnknownFields`) and the trivy report schemas. Decoders are function parameters and a result entry is opaque. Reading only the first JSON value from the stream is part of the decoder.
- Opening and closing the file, the deferred close and its logged error, and `log.Println` in `ReadReport`. These are I/O. Both attempts in `ReadReport` see the same `OpenResult`, so the model does not cover a file that changes or disappears between the two opens.
- Pointers: `ReadReport`'s `*types.Report` and `readAndParseJson`'s `*T` are values. A nil pointer alongside an error is the `Err` case.
- `ConvertK8sReportToReport`: Go's nil slice (no results at all), as distinct from an empty one, is not modelled. Both are the empty sequence.
- `MakeTrivyJsonReport`: it runs the `trivy` subprocess.
- `GetPathToPluginDir`, `GetPathToTemplate` and `ReadPluginFile`: thin wrappers over `os.Executable`, `filepath` and `os.ReadFile`.
- All of `main.go` (help text, temporary file, `log.Fatal` exits, writing the result file), except the plugin's two flag names, which appear in `CommandLine.SplitExample`.
- `CommandLine.RetrievePluginArguments`: the source panics in `trivyCommand[1:]` when nothing was collected. The model makes it a precondition, that the scan's pass-through list is non-empty. `CommandLine.ProgramNameCollected` shows that a first element which is not a recognised flag is enough.
- Go strings are byte strings; the model uses Dafny strings (sequences of Unicode characters), so arguments and messages that are not valid UTF-8 cannot be represented. String equality and the ASCII prefix `json: unknown field` behave the same on the strings that can.
