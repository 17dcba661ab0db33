# Stream assembly and role registry of a terminal LLM chat client

This project models two sequential pieces of a terminal chat client for a local
Ollama server, and proves properties of them:

- **The stream fold of `OllamaHandler.stream_response`** (module `Llm`, `llm.dfy`).
  The response body arrives as a sequence of chunks. Each chunk is one JSON object
  of the chat-style variant: `{"message": {"thinking": …}}` or
  `{"message": {"content": …}}`, or `{"error": …}`. The fold keeps a display buffer
  and a thinking flag, and yields the whole buffer after every chunk. When the
  flag turns on it writes the banner `THINKING 🤔: `. When it turns off it writes
  the break `\n\n---\n`. A chunk with `error`, a chunk without `message`, or a
  chunk that is not JSON ends the stream with an exception.
  `Llm.StreamResponse` is the loop as a method. It is proved equal to the
  specification function `Llm.Run`, and the lemmas describe `Run`.
- **The `RolesManager` role registry** (module `Roles`, `roles.dfy`). The role list
  is the four built-in roles followed by the custom roles stored in the roles
  file. A role is found by first-match search. `add` rejects a name that is
  already used. `delete` rejects unknown names and built-in roles. Both rewrite
  the file and drop the cached list. `Roles.RolesManager` is a class with two
  fields:
  - `file`: the roles file, `None` when it does not exist;
  - `cache`: the `_roles` cache.

  `Valid()` says that a filled cache equals the list loaded from the file.
  The list operations are functions. The lemmas about them are stated for any
  list of built-in roles `pre`, and the methods use them with
  `PredefinedRoles()`.

`wrappers.dfy` holds the `Option` and `Result` datatypes. `Result` stands for
"returns or raises".

A Python generator that yields and then may raise is modelled as an `Outcome`:
the snapshots yielded, then the optional exception.

## Model

| member | source | states |
|---|---|---|
| Llm.Step | app/llm.py:47-56 | No contract of its own; one loop iteration, specified by `Llm.StepAppends` |
| Llm.Run | app/llm.py:39-57 | No contract of its own; the generator from a given state, specified by `Llm.SnapshotsAreFolds`, `Llm.SnapshotsAppendOnly`, `Llm.SnapshotDelta`, `Llm.RunCompletes` and `Llm.RunAbortsAtFirstRejected` |
| Llm.Fold | app/llm.py:41-56 | No contract of its own; the loop iterated over accepted messages, specified by `Llm.FoldSnoc` and `Llm.FoldMode` |
| Llm.Classify | app/llm.py:42-46 | A chunk is accepted exactly when it decodes, has no `error` and has a `message`; an accepted chunk yields its `message` |
| Llm.RunAbortsAtFirstRejected | app/llm.py:42-46 | At the first rejected chunk k, exactly k snapshots were yielded and none after; the exception is the decode error for non-JSON, `OllamaError(data["error"])` when `error` is present (even with a `message`), else `OllamaError("No message in response: " + chunk)` |
| Llm.RunCompletes | app/llm.py:41-57 | The stream ends without an exception exactly when every chunk is accepted |
| Llm.Accepted | app/llm.py:41-46 | The messages of the longest accepted prefix: every one comes from an accepted chunk at the same index, and the chunk after the prefix is rejected |
| Llm.StepAppends | app/llm.py:47-56 | One loop iteration: the new mode is "message has `thinking`"; the buffer grows by the marker for the mode change (banner only on off→on, break only on on→off) and then the thinking text if present, else `content`, else `"\n"` |
| Llm.FoldSnoc | app/llm.py:41-56 | Folding one more message is one more loop iteration |
| Llm.FoldMode | app/llm.py:40-55 | After any number of messages the flag says whether the last one had `thinking`, or keeps its start value when there were none |
| Llm.SnapshotsAppendOnly | app/llm.py:39-57 | Every snapshot extends the starting buffer and every earlier snapshot: the buffer is never trimmed |
| Llm.SnapshotsAreFolds | app/llm.py:41-57 | One snapshot per accepted chunk, in arrival order; snapshot k is the buffer after the first k+1 messages |
| Llm.SnapshotDelta | app/llm.py:47-57 | Snapshot k equals snapshot k-1 plus exactly one marker for the mode change between messages k-1 and k, plus message k's payload; consecutive thinking chunks add no banner |
| Llm.StreamResponse | app/llm.py:39-57 | The loop yields exactly the snapshots and raises exactly the exception that `Run` gives from the empty buffer and the flag off |
| Llm.ThinkingThenAnswer | app/llm.py:39-57 | `[{message:{thinking:"A"}}, {message:{content:"B"}}]` yields `"THINKING 🤔: A"`, then `"THINKING 🤔: A\n\n---\nB"`, with no exception |
| Llm.AnswerOnly | app/llm.py:39-57 | `[{message:{content:"he"}}, {message:{content:"llo"}}]` yields `"he"`, then `"hello"` |
| Llm.ErrorAfterAnswer | app/llm.py:43-44 | An `error` chunk that also has a `message` raises its error after the earlier snapshot, and a later chunk is never seen |
| Roles.Role.ToDict | app/roles.py:57-59 | No contract of its own; the record of a role, specified through `Roles.ToRecords` and `Roles.ToRecordsOfFromRecords` |
| Roles.ErrorMessage | app/roles.py:111-127 | No contract of its own; the three `ValueError` texts |
| Roles.PredefinedRoles | app/roles.py:77-79 | No contract of its own; the built-in records flagged predefined, specified by `Roles.LoadRolesLayout` and `Roles.PredefinedAreFound` |
| Roles.LoadCustomRoles | app/roles.py:86-95 | No contract of its own; the file's records flagged custom, specified by `Roles.LoadRolesLayout`, `Roles.SaveLoadRoundTrip` and `Roles.LoadSaveRoundTrip` |
| Roles.SaveCustomRoles | app/roles.py:133-145 | No contract of its own; removes the file for an empty list, else writes the records, specified by `Roles.SaveLoadRoundTrip` and `Roles.LoadSaveRoundTrip` |
| Roles.LoadRoles | app/roles.py:75-84 | No contract of its own; the built-in roles then the custom roles, specified by `Roles.LoadRolesLayout` |
| Roles.Customs | app/roles.py:117 | No contract of its own; `add`'s filter, specified by `Roles.CustomsAppend` and `Roles.CustomsSplit` |
| Roles.FileAfterAdd | app/roles.py:117 | No contract of its own; the file `add` writes, specified by `Roles.AddAppendsRole` |
| Roles.FileAfterDelete | app/roles.py:129-130 | No contract of its own; the file `delete` writes, specified by `Roles.DeleteFiltersCustoms` |
| Roles.FromRecords | app/roles.py:77-79 | Each record becomes a role with the same name and prompt and the given predefined flag, in order |
| Roles.ToRecords | app/roles.py:57-59 | Each role becomes its `to_dict` record (name and prompt only), in order |
| Roles.ToRecordsOfFromRecords | app/roles.py:57-59 | `to_dict` undoes building roles from records |
| Roles.LoadRolesLayout | app/roles.py:75-84 | `roles` is the four built-in roles in order, flagged predefined, then the stored records in order, flagged custom |
| Roles.SaveLoadRoundTrip | app/roles.py:133-145 | Saving removes the file exactly when the list is empty; reloading gives each role's name and prompt back in order, flagged custom; an empty save leaves exactly the built-in roles |
| Roles.LoadSaveRoundTrip | app/roles.py:86-95 | Loading the custom roles and saving them writes back the same records, or leaves the file absent when it held none |
| Roles.Lookup | app/roles.py:97-102 | None exactly when no role has the name; otherwise a role with that name at an index before which no role has it |
| Roles.LookupFirst | app/roles.py:97-102 | The lookup returns the role at the first index that carries the name |
| Roles.LookupAppend | app/roles.py:97-102 | A lookup in a concatenation searches the second part only when the first has no match |
| Roles.FindByName | app/roles.py:97-102 | The loop with early return computes `Lookup` |
| Roles.PredefinedNamesDistinct | app/roles.py:14-46 | No two built-in roles share a name |
| Roles.PredefinedAreFound | app/roles.py:14-46 | Every built-in role is found by its name, whatever the file holds, and what is found is the built-in one |
| Roles.DefaultIsVirtualAssistant | app/roles.py:104-109 | A lookup of "Virtual Assistant" always finds the built-in Virtual Assistant, which is also `roles[0]` |
| Roles.Remaining | app/roles.py:129 | No kept role carries the deleted name or is built in |
| Roles.RemainingAppend | app/roles.py:129 | The delete filter distributes over concatenation, so the relative order of kept roles is unchanged |
| Roles.RemainingKeepsOthers | app/roles.py:129 | A list whose roles are all custom and none named `name` passes the filter unchanged |
| Roles.RemainingMembers | app/roles.py:129 | In any list, a role is kept exactly when it is in the list, custom, and not named `name` |
| Roles.CustomsAppend | app/roles.py:117 | The `add` filter distributes over concatenation |
| Roles.RemainingEmpty | app/roles.py:129 | The filter on custom roles leaves nothing exactly when every one carries the name |
| Roles.CustomsSplit | app/roles.py:117 | The `add` filter drops built-in roles and keeps custom ones unchanged |
| Roles.Names | app/roles.py:147-149 | Same length as the roles, with names in the same order |
| Roles.AddAppendsRole | app/roles.py:111-119 | After `add`, the file is the old records plus the new record, and the role list is the old one with the new custom role appended |
| Roles.DeleteFiltersCustoms | app/roles.py:121-131 | After `delete`, the stored custom roles are the old ones, in order, without those named `name`; the file is removed exactly when every stored record had that name |
| Roles.DeletedNameIsGone | app/roles.py:121-131 | After a successful `delete`, no role with the name is left |
| Roles.DeleteKeepsOtherRoles | app/roles.py:121-131 | `delete` of one name leaves the lookup of every other name unchanged |
| Roles.AddedIsFound | app/roles.py:97-102 | A role appended to a list that has no role of its name is what a lookup of that name finds |
| Roles.AddThenDeleteRestores | app/roles.py:111-131 | After `add` of a new name the name is found as the new custom role, so `delete` of it succeeds; that `delete` restores the role list |
| Roles.RolesManager.constructor | app/roles.py:65-66 | A manager over the given file with an empty cache |
| Roles.RolesManager.GetRoles | app/roles.py:68-73 | Returns the list loaded from the current file and leaves it cached |
| Roles.RolesManager.GetByName | app/roles.py:97-102 | Returns the first role of the current list with the name, or None |
| Roles.RolesManager.GetDefault | app/roles.py:104-109 | Always returns the built-in Virtual Assistant with its prompt |
| Roles.RolesManager.SaveRoles | app/roles.py:133-145 | The file becomes what `SaveCustomRoles` gives: removed for an empty list, else the records |
| Roles.RolesManager.Add | app/roles.py:111-119 | A used name fails with "already exists" and leaves the file unchanged; otherwise it returns the new custom role, appends its record to the file, drops the cache, and the reloaded list is the old one plus the role, which a lookup of the name now finds |
| Roles.RolesManager.Delete | app/roles.py:121-131 | An unknown name fails with "not found", and a name whose first match is built in fails with "cannot delete predefined"; both leave the file unchanged. Otherwise it drops the cache, and the reloaded list is the built-in roles plus the old customs minus every role with the name, so the name is gone |
| Roles.RolesManager.ListNames | app/roles.py:147-149 | The names of the current list, same length and order |

## Left out

- HTTP transport is not modelled: `httpx.AsyncClient`, `client.stream`, `aiter_text`, `list_models` and `preload_model`, because they are network I/O. The fold runs over a finite chunk sequence that has already been received.
- `json.loads` is not modelled. Each chunk carries its raw text and an optional decoding, and a missing decoding raises the decoder's error (`DecodeError`).
- Each decoded chunk is assumed to be a JSON object. For another top-level value the `"error" in data` test differs: on a number it raises `TypeError`, and on a list or a string it is a membership or substring test. `Record` cannot represent those values. A chunk's `message` value is assumed to be an object too. For a string or list `message`, the `"thinking" in data["message"]` test is a substring or membership test. For a `null` one it raises `TypeError`. Then `["thinking"]` or `.get` raises `TypeError` or `AttributeError`, not `OllamaError`. `Message` cannot represent those values.
- `roles`, `get_by_name` and `get_default` return the cached list and its mutable `Role` objects by reference. The model uses values, so it assumes callers never change them in place: `Valid()` and the manager's contracts hold only under that assumption. A caller that appended to `roles` would change later lookups and what `add` and `delete` write back.
- JSON values that are not strings are not modelled. For example, a `null` `content` would make the Python `+=` raise a `TypeError`. `thinking` and `content` are modelled as present-or-absent strings.
- The mode is the boolean `is_thinking`, as in the code, not a three-state Idle/Thinking/Answering enum. Idle and Answering behave the same in the code.
- Only the chat-style `message.*` wire variant is modelled. The completion-style variant (top-level `thinking`/`response`) does not appear in app/llm.py.
- `app/session.py` is not part of this model. That covers the response session: forwarding snapshots to the live view, appending the assistant message to history, and handling an empty stream.
- Terminal live rendering, asynchronous suspension, concurrency and cancellation are not modelled.
- TOML reading and writing, `CONFIG_DIR.mkdir` and `unlink` are abstracted to one value, the state of the roles file. It is absent, or it holds the records under its `roles` key. A file without a `roles` key reads as holding none.
- Other writers of the roles file between two calls are not modelled. The manager's cache is tied to the file it last saw.
- The malformed-TOML error and the missing `name`/`prompt` `KeyError` are not modelled. Records always have both fields.
- `Roles.RolesManager.Add` and `Roles.RolesManager.Delete` are stated with the built-in roles fixed to `PredefinedRoles()`. The generic lemmas they rely on hold for any all-built-in prefix.
- The other modules are not part of this model: `app/repository.py` (ORM persistence), `app/utils.py` (terminal prompts), `app/config.py` (constants), `app/assets.py` (static strings) and `app/__main__.py` (entry point).
