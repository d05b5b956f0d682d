# GRUB `search` command — a verified model

This project models GRUB's `search` command (`commands/search.c`). Given a
key, it walks every device that `grub_device_iterate` enumerates and tests
each one. The test depends on the mode:

- **file** (`-f`): the file `(<device>)<key>` opens;
- **label** (`-l`): the filesystem label equals the key;
- **fs-uuid** (`-u`): the filesystem UUID equals the key.

Without `-s`, every matching device's name is printed, each preceded by a
space. With `-s`, the first match is bound to the named variable (`root` when
no name is given) and the enumeration stops. `-n` skips devices whose names
look like floppies (`fd` followed by a digit). Afterwards the command reports
"no such device" or "no such file" when nothing matched. File mode does so
only when no error is pending: a failed buffer allocation stops the
enumeration and that error is reported instead.

## Layout

- `wrappers.dfy`: `Option` and `Result`.
- `platform.dfy`: what the model takes from the rest of GRUB.
  - `ErrCode` stands for `grub_errno`.
  - `Device` is one enumerated device, as the collaborators would answer for it:
    - whether `grub_device_open` succeeds;
    - what `grub_fs_probe` returns, with each label/UUID accessor's resulting `grub_errno` and string;
    - whether `grub_realloc` fails during the visit;
    - which full paths `grub_file_open` accepts.
- `device_names.dfy`: the pure pieces of the callbacks.
  - The floppy-name test.
  - The `"(" + name + ")" + key` path and the length of its buffer.
  - A parser that reads the path back.
  - `FormatDevicePath`, which fills a NUL-terminated character array as `grub_sprintf` does.
- `matching.dfy`: the specification of the search.
  - `Judge`: the verdict each callback reaches on one device (skipped, no match, match, allocation failure).
  - `Run`: the reference enumeration, as a pure function producing a `Trace` (names matched, names probed, whether an allocation failure stopped it).
  - `FirstHit` and `Reach`: where binding mode and print mode stop.
  - The final error decision of each mode.
  - Lemmas relating all of these.
- `search.dfy`: the command itself, imperatively.
  - Class `Grub` holds GRUB's global state that the command touches: `grub_errno`, the error message, the environment, the console, and a ghost log of the devices probed.
  - `IterateDeviceFs` and `IterateDeviceFile` are the two `iterate_device` callbacks.
  - `Iterate` is `grub_device_iterate` as a `while` loop that stops when a callback returns 1.
  - `SearchFs` and `SearchFile` are `search_fs` and `search_file`.
  - `CmdSearch` is `grub_cmd_search`.
  - Each callback, and `Hook` which picks one by mode, is proved to leave the state one step of `Run` records; `Iterate` is proved to leave the state the whole of `Run` records.
  - `SearchFs`, `SearchFile` and `CmdSearch` are proved to leave exactly `Outcome`, the pure state after a search, and lemmas about `Outcome` state the command's promises end to end.
  - `FormatDevicePath` in `device_names.dfy` is proved against `DevicePath`.
- `scenarios.dfy`: concrete runs over small device lists.

The dispatch follows the code, not the option help text. The help text calls
file mode the default (`commands/search.c:32`), but with none of `-f`, `-l`,
`-u` the code fails with "unspecified search type"
(`commands/search.c:184-187`). The model does the same (`Search.Plan`,
`Search.Grub.CmdSearch`).

## Model

| member | source | states |
|---|---|---|
| `DeviceNames.IsFloppyName` | commands/search.c:61-64 | a name is a floppy name exactly when it has at least three characters, the first two being `f` and `d` and the third an ASCII digit; shorter names never qualify |
| `DeviceNames.PathBufferLength` | commands/search.c:132 | the allocated length `strlen(name) + 2 + strlen(key) + 1` is exactly the path's length plus one byte for the terminator |
| `DeviceNames.DevicePath` | commands/search.c:138 | the probed path is `(`, the device name, `)`, then the key: the name sits between the parentheses and the key follows them |
| `DeviceNames.DevicePathParses` | commands/search.c:138 | a device path splits back into its device name and key at the first `)` when the name has no `)` |
| `DeviceNames.FormatDevicePath` | commands/search.c:132-138 | the buffer has exactly the allocated length, holds the device path, and ends with the NUL terminator |
| `Matching.Judge` | commands/search.c:127-135 | a device is skipped exactly when floppies are excluded and its name is a floppy name; the search stops on an allocation failure exactly in file mode, for a device not skipped whose buffer allocation fails |
| `Matching.MatchRule` | commands/search.c:66-82 | in label/UUID mode a device matches iff it is not skipped, it opens, its filesystem is recognised, the accessor the `QUID` macro selects (UUID in UUID mode, label otherwise) exists, leaves no error, returns a string, and that string equals the key; in file mode it matches iff it is not skipped, the allocation succeeds and the path opens |
| `Matching.Run` | commands/search.c:119-160 | the enumeration records no more matches than devices probed and no more probes than devices; with a variable to bind it records at most one match; only file mode can be stopped by an allocation failure |
| `Matching.FirstHit` | commands/search.c:86-89 | when it exists, the first match lies at a position every earlier device skipped or missed; when it does not, every matching device comes after an allocation failure |
| `Matching.BindIsPrintUpToFirstHit` | commands/search.c:145-148 | binding mode does exactly what print mode does on the devices up to and including the first match, so no device after it is probed |
| `Matching.BindIsPrintUpTo` | commands/search.c:86-89 | binding mode equals print mode on the devices up to a first match at a named position |
| `Matching.BindRecordsFirstHit` | commands/search.c:145-148 | binding mode records exactly the first matching device, or nothing when none is reached |
| `Matching.BindWithoutHitIsPrint` | commands/search.c:86-92 | when no match is reached, binding mode and print mode probe and record the same devices |
| `Matching.Reach` | commands/search.c:133-135 | the devices print mode reaches are those before the first allocation failure, and that failure (if any) lies right after them |
| `Matching.ReachedIff` | commands/search.c:133-135 | a device is reached exactly when neither it nor any device before it failed its allocation |
| `Matching.PrintStopsAtAllocFail` | commands/search.c:133-135 | print mode ends with out of memory pending iff an allocation failure is reached, and it probes exactly what it probes on the devices before that failure, none after |
| `Matching.BindStopsAtAllocFail` | commands/search.c:133-148 | binding mode ends with out of memory pending iff an allocation failure is reached before any match |
| `Matching.PrintHitIndices` | commands/search.c:144-151 | in print mode the recorded matches are exactly the matching devices reached, by increasing position in enumeration order |
| `Matching.NoHitNoMatches` | commands/search.c:82-85 | with no matching device no match is recorded, in either mode |
| `Matching.OomMeansAllocFail` | commands/search.c:133-135 | an enumeration stopped by an allocation failure met a device whose allocation failed |
| `Matching.FloppiesNeverProbed` | commands/search.c:127-130 | with floppies excluded, no floppy name is ever opened or probed, in either mode |
| `Matching.AllProbedWithoutExclusion` | commands/search.c:60-66 | without floppy exclusion, print mode in label/UUID mode opens every enumerated device, floppies included, in order |
| `Matching.LabelUuidDecision` | commands/search.c:102-109 | label/UUID mode fails with "no such device: key" iff nothing matched, and otherwise leaves no error and the message unchanged, whatever error was pending before; it fixes `RaisesNotFound`, `FinalErrno` and `FinalErrmsg` for this mode |
| `Matching.FileDecision` | commands/search.c:156-165 | file mode fails with "no such file: key" iff nothing matched, no allocation failed, and either some device was probed or no error was pending; an allocation failure is reported as out of memory with its message; a match leaves no error; when no device was probed the pending error and its message survive; it fixes `LoopErrno`, `RaisesNotFound`, `FinalErrno` and `FinalErrmsg` for this mode |
| `Search.Outcome` | commands/search.c:49-166 | a search only appends to the console and to the probe log, changes no variable but the one `-s` names (and none without `-s`), prints nothing when binding, and leaves no error, "not found", out of memory, or the error pending before |
| `Search.PrintOutcome` | commands/search.c:85-92 | without `-s` the console gains a space and the name of exactly the matching devices that come before any allocation failure, in enumeration order, and the environment is untouched |
| `Search.BindOutcome` | commands/search.c:86-90 | with `-s` nothing is printed; the variable is set to the first matching device reached, or left alone when there is none; the devices probed are those print mode probes up to that match |
| `Search.NoMatchOutcome` | commands/search.c:108-109 | when no device matches, nothing is printed or bound, and the command fails with the mode's "not found" message in label/UUID mode, and in file mode when no error was pending and no allocation failed |
| `Search.AllocFailOutcome` | commands/search.c:133-135 | an allocation failure reached before the enumeration stops (when binding: before any match) leaves out of memory and its message in place of "no such file", and nothing after the failure is probed |
| `Search.RepeatOutcome` | commands/search.c:145-151 | repeating a search over the same devices binds the same device and prints the same lines again |
| `Search.Plan` | commands/search.c:174-187 | no argument fails first with "no argument specified"; `-s` binds the variable it names, or `root` when it names none; label takes precedence over UUID and UUID over file; with none of the three the call fails with "unspecified search type" |
| `Search.Grub.IterateDeviceFs` | commands/search.c:55-104 | the label/UUID callback adds one to the count per match, returns 1 exactly on a match while binding, prints or binds the match, and clears the error after every device it did not skip |
| `Search.Grub.IterateDeviceFile` | commands/search.c:119-158 | the file callback: a failed allocation leaves "out of memory" pending and returns 1; otherwise it probes the device path, counts, prints or binds a match, and clears the error |
| `Search.Grub.Hook` | commands/search.c:160 | the callback handed to the enumerator is the file callback in `search_file` and the label/UUID callback in `search_fs` (line 106); either leaves the state one step of the reference enumeration records |
| `Search.Grub.Iterate` | commands/search.c:106 | the enumeration loop stops as soon as a callback returns 1; its final count is the number of matches in the reference enumeration, and the global state is what that enumeration records |
| `Search.Grub.SearchFs` | commands/search.c:49-110 | `search_fs` leaves exactly the state `Outcome` describes for label/UUID mode |
| `Search.Grub.SearchFile` | commands/search.c:112-166 | `search_file` leaves exactly the state `Outcome` describes for file mode |
| `Search.Grub.CmdSearch` | commands/search.c:168-190 | the command returns the final error; a refused invocation sets "invalid command" with its message and touches nothing else; otherwise it runs the search its options select |
| `Scenarios.PrintsLabelMatch` | commands/search.c:80-92 | devices hd0, hd1 (labelled MYUSB) and fd0, label search for MYUSB: the output is ` hd1`, all three are probed, and no error is raised |
| `Scenarios.BindsRootToLabelMatch` | commands/search.c:177-178 | the options `-l -s` with key MYUSB are planned as a label search binding `root`; run over the same devices, `root` is set to hd1, nothing is printed, fd0 is never probed |
| `Scenarios.SkipsFloppyInFileSearch` | commands/search.c:127-151 | file search with `-n` over fd0 and hd0 (both hold the file): fd0 is never probed and the output is ` hd0` |
| `Scenarios.ReportsMissingUuid` | commands/search.c:73-109 | a UUID search on a filesystem without a UUID accessor fails with "no such device: ABCD-1234" and prints nothing |
| `Scenarios.RefusesIncompleteCommands` | commands/search.c:174-187 | no key gives "no argument specified"; a key without a search type gives "unspecified search type" |

## Left out

- The option table and the registration and unregistration of the command (`commands/search.c:30-47`, `192-210`) are left out. The parsed options are taken as the `Flags` value.
- The internals of `grub_device_iterate`, `grub_device_open`, `grub_fs_probe`, the label and UUID accessors, `grub_file_open` and `grub_realloc` are not part of this model. Each device record carries their answers: whether the device opens, the probed filesystem and its accessors' results, whether the allocation fails, and which paths open.
- `Matching.LoopErrno`, `Matching.FileDecision`, `Matching.LabelUuidDecision`: the model assumes that `grub_device_iterate` neither sets nor clears `grub_errno` between or after callbacks (`kern/device.c` is not part of this model). Suppose the enumerator itself leaves an error pending after the last callback, for instance from its own open of a disk. GRUB's file mode would then report that error instead of "no such file". GRUB's label/UUID mode would return it after a search that found a match, since `search_fs` overwrites `grub_errno` only when nothing matched. The model does not capture this. The two decision lemmas hold only under that assumption.
- `grub_device_close`, `grub_file_close` and `grub_free` are not modelled. They release resources and do not affect the result.
- The reuse of one growing buffer across callbacks is not modelled. Each visit formats into a fresh array of the same length.
- The text of the collaborators' own error messages is not modelled. The error code they leave is modelled through the accessor's `grub_errno`. The message is only visible when an error stays pending. Given the enumerator assumption below, in every such case the model produces the message GRUB does: the mode's "not found" text, "out of memory", or the message pending before the command.
- The exact wording of the allocation-failure message belongs to GRUB's allocator (`kern/mm.c` is not part of this model). It is written here as "out of memory".
- The C `int` counter cannot overflow in the model. It is an unbounded natural number, and an overflow would need more than 2^31 matching devices.
- The return value of `grub_env_set` is ignored, as the code ignores it.
- Device names and keys are sequences of characters without an embedded NUL. `grub_strcmp` equality is sequence equality.
