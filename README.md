# dumping-javaagent, modelled in Dafny

A model of the Java agent `com.github.rmannibucau.agent.DumpingAgent`. When the agent is attached, `start` reads the agent argument `<folder>` or `<folder>?<filter>`. It checks that the output folder is usable and registers a `Dumper` transformer with the host's `Instrumentation`. The JVM then calls the Dumper on every class load. It writes the class's bytes to `<folder>/<className>.class` when the class name, with slashes turned into dots, starts with the filter. It always hands the buffer back unchanged. A static field guards against activating the agent twice.

Files:

- `options.dfy`: module `Options`. `Option`, for Java's nullable agent argument and filter.
- `java_strings.dfy`: module `JavaStrings`. `indexOf(char)`, `replace(char, char)` and `startsWith`, the `String` operations the agent uses.
- `dumping.dfy`: module `Dumping`. The `Dumper` transformer: the datatype `Dumper(base, filter)` holds the two final fields of the class `Dumper` (DumpingAgent.java:53-60), and its members give the filter test, the target file and the write. The filesystem is a `FileSystem` object holding the log of successful writes, plus the functions that say what each file holds after a log.
- `agent.dfy`: module `Agent`. The argument split, the activation step as a function (`Activate`) with lemmas over runs of calls, the host `Instrumentation` reduced to its list of registered transformers, and the class `DumpingAgent`. This class holds the static guard field, and its `Start` method is proved against `Activate`.

The model takes these effects as inputs:

- `usable: string -> bool` answers `mkdirs(folder) && folder.canWrite()` for the output folder.
- `parentReady` is the result of `mkdirs` on the target file's parent folder.
- `writeOk` says whether opening and writing the file raised no `IOException`.

Calls happen one at a time.

Two edge cases of the argument:

- `start` does not reject an empty argument. `""` has no `?`, so it all becomes the folder, and only the folder check (DumpingAgent.java:45) can refuse it.
- A leading `?` is not a separator. `filterIdx > 0` (line 37) fails at index 0, so the whole argument is the folder and there is no filter, even when a later `?` follows (`SplitArgs`, `LeadingMarkIsFolder`).

## Model

| member | source | states |
|---|---|---|
| `JavaStrings.IndexOf` | src/main/java/com/github/rmannibucau/agent/DumpingAgent.java:34 | the result is -1 exactly when `?` does not occur; otherwise `?` is at that index and nowhere before it |
| `JavaStrings.StartsWith` | src/main/java/com/github/rmannibucau/agent/DumpingAgent.java:72 | true exactly when the prefix is no longer than the string and agrees with it at every index of the prefix |
| `JavaStrings.Replace` | src/main/java/com/github/rmannibucau/agent/DumpingAgent.java:72 | same length; each `/` becomes `.` and every other character stays where it is |
| `Agent.SplitArgs` | src/main/java/com/github/rmannibucau/agent/DumpingAgent.java:34-43 | no filter exactly when there is no `?` or the first character is `?`, and then the folder is the whole argument; with a filter, the folder is non-empty and has no `?`, and folder + `?` + filter is the argument |
| `Agent.SplitJoin` | src/main/java/com/github/rmannibucau/agent/DumpingAgent.java:34-43 | splitting loses nothing: joining the parts back gives the argument, and the parts are canonical |
| `Agent.JoinSplit` | src/main/java/com/github/rmannibucau/agent/DumpingAgent.java:34-43 | every canonical (folder, filter) pair is what `<folder>?<filter>` (or `<folder>`) splits into, so the split is the inverse of the argument syntax `<folder>` or `<folder>?<filter>` |
| `Agent.CutIsUnique` | src/main/java/com/github/rmannibucau/agent/DumpingAgent.java:37-39 | a string splits at its first `?` in exactly one way: a `?`-free prefix and the rest |
| `Agent.LeadingMarkIsFolder` | src/main/java/com/github/rmannibucau/agent/DumpingAgent.java:37-42 | an argument starting with `?` becomes the folder in full, with no filter |
| `Agent.Activate` | src/main/java/com/github/rmannibucau/agent/DumpingAgent.java:23-50 | the guard ends armed exactly when it already was or the host passed an Instrumentation; the call returns at once exactly when the guard was armed; it fails on a missing argument exactly when the guard was unarmed and the argument is null; it fails on the folder exactly when the guard was unarmed, the argument is non-null and its folder is not usable; the call ends in the null-Instrumentation failure exactly when the guard was unarmed, no host was passed, the argument is non-null and the folder is usable; a Dumper is registered exactly when the guard was unarmed, a host is present, the argument is non-null and the folder is usable, and that Dumper holds the split folder and filter |
| `Agent.Outcomes` | src/main/java/com/github/rmannibucau/agent/DumpingAgent.java:13-51 | a run of calls of `start` gives exactly one outcome per call; by its definition the guard left by each call (the static field of line 13) is carried into the next, and the run lemmas below are stated over it |
| `Agent.ArmedRejectsAll` | src/main/java/com/github/rmannibucau/agent/DumpingAgent.java:24-26 | once the guard is armed, every later call of `start` returns at once |
| `Agent.FirstCallArms` | src/main/java/com/github/rmannibucau/agent/DumpingAgent.java:23-32 | after a first call with a host, every later call returns at once, even when that first call failed on a null argument or an unusable folder |
| `Agent.AtMostOneRegistration` | src/main/java/com/github/rmannibucau/agent/DumpingAgent.java:23-50 | in any run of calls of `start`, at most one call registers a Dumper |
| `Agent.Instrumentation.AddTransformer` | src/main/java/com/github/rmannibucau/agent/DumpingAgent.java:50 | the Dumper is appended to the host's registered transformers |
| `Agent.DumpingAgent.constructor` | src/main/java/com/github/rmannibucau/agent/DumpingAgent.java:13 | the guard field starts out null |
| `Agent.DumpingAgent.Start` | src/main/java/com/github/rmannibucau/agent/DumpingAgent.java:23-51 | the outcome and the new guard are those of `Activate`; an armed guard keeps its value, an unarmed one takes the given Instrumentation; the host's transformers grow by the registered Dumper and by nothing else |
| `Dumping.Accepts` | src/main/java/com/github/rmannibucau/agent/DumpingAgent.java:72-74 | no filter accepts every class; a filter accepts exactly the names at least as long as it whose slash-to-dot form agrees with it on its length |
| `Dumping.SlashFilterAcceptsNothing` | src/main/java/com/github/rmannibucau/agent/DumpingAgent.java:72 | a filter containing `/` accepts no class, since it is compared with the dotted name |
| `Dumping.EmptyFilterAcceptsAll` | src/main/java/com/github/rmannibucau/agent/DumpingAgent.java:72 | the empty filter (argument ending in `?`) accepts every class |
| `Dumping.TargetFile` | src/main/java/com/github/rmannibucau/agent/DumpingAgent.java:76 | the target is under the base folder, and its name is the class name (slashes kept) followed by `.class` |
| `Dumping.TargetFileNamesClass` | src/main/java/com/github/rmannibucau/agent/DumpingAgent.java:76 | the class name can be read back from the target file, and distinct class names under one base give distinct FilePaths |
| `Dumping.LastIndexOf` | src/main/java/com/github/rmannibucau/agent/DumpingAgent.java:84-85 | gives the latest write to a file in the log, or -1 when there is none |
| `Dumping.LastWrite` | src/main/java/com/github/rmannibucau/agent/DumpingAgent.java:84-85 | a file holds nothing exactly when no write in the log went to it; otherwise it holds the bytes of a write to it after which no other write went to it, since `new FileOutputStream(file)` replaces the old contents |
| `Dumping.WriteOverwrites` | src/main/java/com/github/rmannibucau/agent/DumpingAgent.java:84-85 | after a write, the file holds exactly the new bytes and every other file is unchanged, so dumping a class again overwrites its earlier dump |
| `Dumping.FileSystem.WriteFile` | src/main/java/com/github/rmannibucau/agent/DumpingAgent.java:84-85 | a successful write is appended to the log |
| `Dumping.Dumper.Dumped` | src/main/java/com/github/rmannibucau/agent/DumpingAgent.java:71-85 | a dump makes at most one write; it makes one exactly when the filter accepts the class, the parent folder is available and the write succeeds; and it writes the buffer's bytes to the target file |
| `Dumping.Dumper.Dump` | src/main/java/com/github/rmannibucau/agent/DumpingAgent.java:71-97 | the filesystem log grows by exactly the writes `Dumped` describes |
| `Dumping.Dumper.Transform` | src/main/java/com/github/rmannibucau/agent/DumpingAgent.java:63-69 | the result is the very input buffer, with its contents unchanged, whether the dump was skipped, failed or done; the log grows as for `Dump` |

## Left out

- Filesystem work (`new File`, `mkdirs`, `isDirectory`, `canWrite`, `getParentFile`, `FileOutputStream`, `close`): these are oracles. The `mkdirs` helper itself is folded into them. Path normalisation and separators are not modelled: `FilePath` keeps the two arguments of `new File(parent, child)` as given.
- `Dumping.Dumper.Dump`: a write that fails part-way is modelled as no write at all. The bytes such a write leaves in the file are not modelled. Errors from `close` are swallowed and have no effect in the model.
- `Agent.Activate`: the `NullPointerException` that `instrumentation.addTransformer` throws out of `start` (line 50) when the host passed a null Instrumentation is modelled as the returned outcome `NullInstrumentation`, not as an exception propagating to the caller.
- `Dumping.TargetFileNamesClass`: `FilePath` keeps the two arguments of `new File(parent, child)` apart, while `java.io.File` joins them into one path, so `("/tmp", "a/B")` and `("/tmp/a", "B")` name the same file. The lemma therefore promises distinct targets only for distinct class names under one base, which is the case that matters since at most one Dumper is ever registered.
- Diagnostics on `System.err` and `printStackTrace`: output only.
- `synchronized` on `start` and concurrent `transform` calls: calls are modelled one at a time.
- `premain` and `agentmain`: each only calls `start` with its arguments, so `Start` stands for both.
- The `ClassLoader`, `Class` and `ProtectionDomain` parameters of `transform`: the code never reads them. `Instrumentation` is reduced to its list of transformers and `addTransformer`. The host's calls of registered transformers are not modelled.
- A null `className` or `classfileBuffer` in `transform`: the model takes both as non-null. With a null name, the Java code fails with a `NullPointerException` when a filter is set, and dumps to `null.class` when no filter is set.
- Java `char` is a UTF-16 code unit and Dafny's `char` is a Unicode scalar value. The strings are modelled as sequences of scalar values. This gives the same results for two reasons. First, `?`, `/` and `.` are single code units that never occur inside a surrogate pair, so `indexOf('?')` and `replace('/', '.')` find and change the same characters in both views, and `indexOf` and `substring` use the same index, so the two parts of the split are the same strings. Second, in well-formed UTF-16, one string is a prefix of another counted in code units exactly when it is a prefix counted in scalar values, so `startsWith` gives the same answer. Strings with unpaired surrogates are not modelled.
