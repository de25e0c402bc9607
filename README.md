# Thoughtsitory conversation nodes, modelled in Dafny

Thoughtsitory keeps a personal store of "thought nodes". Each node holds an AI
conversation transcript (a list of user/AI messages), a title, a summary, a
duplicate-free tag list, three link lists (parents, forks, related), a list of
version snapshots, and creation/update timestamps. A command-line tool creates nodes,
adds messages and tags, forks a node into a new one, and has a `snapshot` command.

This project models:

- the node data model of `thoughtsitory/models.py`: message types, messages, and
  the `ThoughtNode` class with its in-place mutators and its dict round-trip;
- the node-manipulating parts of the commands in `thoughts.py`: tag-list parsing,
  node creation, the `add-message` input checks, the `fork` copy-and-link step, and
  the `snapshot` argument checks and the outcome of that command.

Prompts, printing and saving are left out. Every answer the user would type, every
clock reading and every fresh uuid is a caller-supplied parameter.

Files (one module each):

- `results.dfy`: `Result` and `Option`. Python's exceptions become `Err` values.
- `text.dfy`: the Python string builtins the code relies on. These are `str.strip()`
  (with Python's whitespace set), `str.split(sep)`, `sep.join` and `str.lower()`.
- `lists.dfy`: the list updates the mutators perform.
  - The append guarded by `not in`.
  - `list.remove`, which deletes the first occurrence.
  - The duplicate collapse that a run of guarded appends produces.
- `records.dfy`: plain records (JSON-like dicts, lists and strings) and `data[key]`.
- `models.dfy`: `MessageType`, `Message`, `ThoughtNode`, serialisation.
- `commands.dfy`: the command fragments.

`ThoughtNode` is a class whose fields the methods assign. `View()` gives the value of
all its fields as a `NodeView`. Each mutator states its new `View()` in terms of the
old one, so every field it does not mention is unchanged. Whether `updated_at` is
assigned shows up as whether the `updatedAt` field equals the `now` parameter or keeps
its old value.

Facts about the code that the model keeps:

- A version record has the keys id, timestamp, description, content and summary. It
  stores the node's own summary.
- There is no revert and no version-comparison code.
- `ThoughtNode.add_message` neither strips nor rejects text. Only the `add-message`
  command does.
- `remove_tag` of an absent tag does not touch `updated_at`. Nor do `add_tag` and the
  link adders when the value is already present.

## Model

| member | source | states |
|---|---|---|
| `Text.Strip` | thoughts.py:43 | `s.strip()` has no whitespace at either end. It is empty exactly when `s` is all whitespace. It leaves an already-stripped string unchanged. It is the infix of `s` between a leading and a trailing run of whitespace. |
| `Text.StripIsIdempotent` | thoughts.py:43 | Stripping twice is the same as stripping once. |
| `Text.Split` | thoughts.py:43 | `s.split(",")` yields at least one piece. No piece contains the separator. Joining the pieces with the separator gives back `s`. |
| `Text.SplitJoin` | thoughts.py:43 | Splitting undoes joining when no piece holds the separator. |
| `Text.SplitAppend` | thoughts.py:43 | The pieces of `a + "," + b` are the pieces of `a` followed by those of `b`. |
| `Text.Lower` | thoughts.py:130 | On the ASCII subset of `s.lower()`: the length is kept, each capital A-Z becomes the letter 32 code points on, and every other character is left alone. |
| `Commands.MessageTypeInput` | thoughts.py:129-133 | The `--type` value is accepted exactly when it spells "user" or "ai" in any mix of upper and lower case, and it selects that type. |
| `Commands.ParseTags` | thoughts.py:43 | Every parsed tag is non-empty, has no whitespace at either end, and contains no comma. |
| `Commands.ParseTagsConcat` | thoughts.py:43 | Tags come out in input order: the tags of `a + "," + b` are the tags of `a` followed by the tags of `b`. |
| `Commands.ParseTagsOfOne` | thoughts.py:43 | A comma-free input yields its stripped text as its one tag, or nothing when that text is empty. |
| `Commands.ParseTagsJoin` | thoughts.py:43 | Joining non-empty, stripped, comma-free tags with commas and parsing the result gives back the same tags in order. |
| `Commands.ParseTagsOfBlank` | thoughts.py:44-47 | Whitespace-only input yields no tags. So the `strip()` check before parsing a prompted answer makes no difference. |
| `Records.Field` | thoughtsitory/models.py:30-32 | `data[key]` succeeds exactly when `data` is a record holding `key`, and then gives its value. On anything that is not a record it fails with NotARecord. A record without `key` fails with MissingKey(key), Python's KeyError. |
| `Lists.AppendIfAbsent` | thoughtsitory/models.py:61-62 | The guarded append keeps the old list as a prefix. The element is in the result. The list grows by one exactly when the element was absent. A duplicate-free list stays duplicate-free. |
| `Lists.AppendIfAbsentIdempotent` | thoughtsitory/models.py:59-63 | A second guarded append of the same element changes nothing. |
| `Lists.FirstIndex` | thoughtsitory/models.py:68 | The index where `list.remove` acts: it holds the element, and no earlier index does. |
| `Lists.RemoveFirst` | thoughtsitory/models.py:65-69 | An absent element leaves the list as it is. Otherwise exactly its first occurrence is cut out, and everything before and after keeps its order. |
| `Lists.RemoveFirstFromNoDup` | thoughtsitory/models.py:65-69 | On a duplicate-free list, the removed tag is absent afterwards and no duplicate appears. |
| `Lists.Dedup` | thoughts.py:52-54 | Adding the tags one by one gives a list that is duplicate-free and has the same members as the input. |
| `Lists.DedupOfNoDup` | thoughts.py:52-54 | Input without duplicates comes through unchanged. |
| `Lists.DedupKeepsFirstOccurrenceOrder` | thoughts.py:52-54 | Kept tags appear in the order of their first occurrence in the input. |
| `Models.TypeOfValue` | thoughtsitory/models.py:8-10 | `MessageType(v)` finds a type exactly when `v` is that type's value, "user" or "ai". |
| `Models.MessageToDict` | thoughtsitory/models.py:20-25 | `Message.to_dict` produces a record with exactly the keys type, text and timestamp. `Message.from_dict` reads it back to the same message. |
| `Models.MessageFromDict` | thoughtsitory/models.py:27-33 | A non-record fails with NotARecord and a record without "type" with MissingKey. A record holding the three keys, with a known type value and string text and timestamp, is read successfully whatever other keys it has. A message read successfully has the type named by the record's "type" value, and the record's text and timestamp. |
| `Models.MessageToDictOfFromDict` | thoughtsitory/models.py:20-33 | Reading a record and writing the message back gives the record restricted to its type, text and timestamp keys. |
| `Models.MessagesRoundTrip` | thoughtsitory/models.py:20-33 | Serialising a list of messages and reading it back gives the same messages in the same order. |
| `Models.MessagesFromDictsEach` | thoughtsitory/models.py:130-131 | A list of records is read successfully exactly when every record is. Each message is then the one its record gives, in the same place. |
| `Models.MessagesFromDictsConcat` | thoughtsitory/models.py:130-131 | Reading a list of records in two parts gives the concatenation of the two results. The first failing record decides the error. |
| `Models.LinksToDict` | thoughtsitory/models.py:110 | The stored links are a record of exactly the keys parents, forks and related. |
| `Models.LinksFromDict` | thoughtsitory/models.py:124 | A links record is read successfully exactly when it holds "parents", "forks" and "related" as lists of strings, whatever other keys it has. The result holds those three lists. A value that is not a record fails with NotARecord, and a record without "parents" fails with MissingKey. |
| `Models.LinksRoundTrip` | thoughtsitory/models.py:110 | The three link lists survive serialisation. |
| `Models.NodeToDict` | thoughtsitory/models.py:101-113 | The serialised node has exactly the keys id, title, tags, created_at, updated_at, content, links, versions and summary. |
| `Models.NodeFromDict` | thoughtsitory/models.py:115-133 | A non-record fails with NotARecord and a record without "id" with MissingKey. A node read successfully has every field as the record holds it: the scalar fields, the tag list, the links, the version records as stored, and the messages decoded from "content" in order. The converse, when reading succeeds, is `Models.NodeFromDictAccepts`. |
| `Models.NodeRoundTrip` | thoughtsitory/models.py:101-133 | `from_dict(to_dict(n))` reproduces every field: id, title, tags, both timestamps, links, versions and summary, with the content rebuilt message by message in the original order. |
| `Models.NodeFromDictAccepts` | thoughtsitory/models.py:116-133 | A record holding the nine keys, each with the value a node reads from it, is read successfully to that node. Any other keys of the record, of its links record and of its messages are ignored. |
| `Models.NodeFromDictIgnoresOtherKeys` | thoughtsitory/models.py:116-133 | `from_dict` reads only the nine keys of a node. A record that agrees with a serialised node on those keys reads back to that node, whatever other top-level keys it holds. |
| `Models.VersionRecord` | thoughtsitory/models.py:91-97 | A version record has exactly the keys id, timestamp, description, content and summary. The value under each key is stated by `Models.VersionRecordHolds`. |
| `Models.VersionRecordHolds` | thoughtsitory/models.py:89-99 | A version record holds the fresh id under "id", the clock reading under "timestamp", its description and the node's summary. Its content is the element-wise `to_dict` of the messages, and it reads back to those messages. |
| `Models.ThoughtNode.constructor` | thoughtsitory/models.py:36-51 | The new node holds exactly the field values it was given. |
| `Models.ThoughtNode.AddMessage` | thoughtsitory/models.py:53-57 | The content grows by exactly one message with the given type, text and timestamp, at the end. `updated_at` is assigned. Nothing else changes. |
| `Models.ThoughtNode.AddTag` | thoughtsitory/models.py:59-63 | A present tag leaves the whole node unchanged, `updated_at` included. A new tag is appended at the end and `updated_at` is assigned. A duplicate-free tag list stays duplicate-free. |
| `Models.ThoughtNode.RemoveTag` | thoughtsitory/models.py:65-69 | An absent tag changes nothing. A present tag loses only its first occurrence and `updated_at` is assigned. On a duplicate-free list the tag is gone afterwards. |
| `Models.ThoughtNode.AddParent` | thoughtsitory/models.py:71-75 | Only `links["parents"]` can change, by a guarded append. `updated_at` is assigned only when the id is new. The node is unchanged otherwise. |
| `Models.ThoughtNode.AddFork` | thoughtsitory/models.py:77-81 | Only `links["forks"]` can change, by a guarded append. `updated_at` is assigned only when the id is new. |
| `Models.ThoughtNode.AddRelated` | thoughtsitory/models.py:83-87 | Only `links["related"]` can change, by a guarded append. `updated_at` is assigned only when the id is new. |
| `Models.ThoughtNode.CreateVersion` | thoughtsitory/models.py:89-99 | The versions list grows by exactly one record, built from the current content and summary. Content, tags and links are unchanged, and `updated_at` is assigned. |
| `Models.ThoughtNode.ToDict` | thoughtsitory/models.py:101-113 | The record has exactly the nine field keys, and it reads back, through `from_dict`, to this node's every field. |
| `Models.ThoughtNode.FromDict` | thoughtsitory/models.py:115-133 | The loop appends the messages one at a time. It gives a fresh node whose fields are the decoded record, or the same error that decoding the record gives. |
| `Commands.ForkSummary` | thoughts.py:228-237 | The fork summary is "Forked from" plus the original title. It continues with ". Reason: " and the `--notes` value as given, or else with the stripped prompted answer when that is not blank. It is exactly the prefix when no `--notes` was given and the prompted answer is blank. |
| `Commands.SnapshotArgs` | thoughts.py:282-292 | A blank summary label is rejected. Otherwise the label is stripped and non-empty. The notes are the `--notes` value, or else the stripped prompted answer. |
| `Commands.Snapshot` | thoughts.py:282-315 | The `snapshot` command always fails: with EmptySummary for a blank label, and otherwise with SnapshotFailed, because the method it calls does not exist. |
| `Commands.AddTags` | thoughts.py:53-54 | Adding each tag in turn to a node that has no tags gives the tag list with duplicates collapsed, keeping first occurrences in order. `updated_at` is the given reading exactly when the list is non-empty. Every other field is unchanged. |
| `Commands.Create` | thoughts.py:33-54 | A blank title is rejected before any node exists. Otherwise the title is stripped. The tags are the parsed tags with duplicates collapsed. `updated_at` is the tag reading exactly when some tag was added. Links, content and versions are empty. |
| `Commands.AddMessage` | thoughts.py:128-150 | An unknown type (after lower-casing) or a blank text is rejected and the node is untouched. Otherwise the node gains exactly one message holding the stripped text. |
| `Commands.Fork` | thoughts.py:205-240 | A blank title is rejected and the original is untouched. Otherwise the new node has the stripped title, the original's content and tags, the original's id as its only parent, and the fork summary. The original gains the new id in its forks. Its `updated_at` is assigned when that id was not already there. Nothing else of the original changes. |

## Left out

- The command wiring and the user interaction are not modelled. This covers the
  `typer` setup, `Prompt.ask`/`Confirm`, console output and `typer.Exit`. Prompt answers
  are parameters. The `list` and `view` commands only print.
- `save_thought_node` and `load_thought_node` are file I/O. A command that loads a node
  takes the loaded node as a parameter.
- `thoughtsitory/ai.py` (the OpenAI client), `thoughtsitory/utils.py` (file storage
  and printing), `example.py` and `thoughtsitory/__init__.py` are not part of this
  model.
- `datetime.utcnow()` and `uuid.uuid4()` are parameters, one per reading.
  - Commands.Create: all tag additions share one clock reading. Only the last addition's
    reading survives in `updated_at`.
- Commands.Snapshot: the command calls `node.create_snapshot` (thoughts.py:296), which
  `thoughtsitory/models.py` does not define. The AttributeError is caught at
  thoughts.py:313 and the command exits 1 without saving, so it never creates a
  version. The model states that outcome. What `create_snapshot` was meant to do is not
  written anywhere in the source, so no corrected version is modelled. There is no
  revert or version-comparison code to model.
- Text.Lower: only ASCII capitals are lower-cased. Python's `str.lower()` also maps
  other letters ('É' to 'é'), and some to two characters ('İ'). No non-ASCII character
  lower-cases to one of the letters of "user" or "ai". So which `--type` values
  `add-message` accepts is unaffected.
- Models.NodeFromDict: the source passes id, title, tags, created_at, updated_at, links,
  versions and summary through unchecked. The model is stricter:
  - Values of the wrong kind are rejected with `WrongShape`: a value that is not a string
    where a string is read, and a list that is not a list of strings as tags or as one of
    the three link lists.
  - A "links" value that is not a record fails with `NotARecord`. A links record missing
    one of the three lists fails with `MissingKey` naming the first one missing.
  - Extra keys in `links` are ignored, so writing the node back drops them. Python keeps
    them.
  - A node serialised by `to_dict` always passes.
  - A "content" value that is not a list is rejected with `WrongShape("content")`.
    Python iterates any iterable there. An empty string or an empty dict gives a node
    with no messages. A non-empty string or dict fails with a TypeError on its first
    element, and a value that cannot be iterated fails with a TypeError.
  - A message whose text or timestamp is not a string is rejected with `WrongShape`.
    Python passes such values through.
- Models.ThoughtNode.FromDict: has the same strictness as NodeFromDict.
- Records.Value: JSON numbers and booleans cannot be represented. No field of a node or a
  message holds one. A stored record with a number or boolean anywhere, even under a key
  that is never read, cannot be expressed in the model.
- Python aliasing is not modelled. `from_dict` shares the caller's lists, and
  `content.copy()` in `fork` is a shallow copy. Dafny sequences are values.
