# Counselling dialogue bookkeeping (reflex-chat)

A Dafny model of the bookkeeping in `reflex-chat/chat/template.py`. This is the part of the chat
application that tracks a simulated counselling session. It has two parts:

- A `Dialogue` walks through four fixed phases: Exploring, Choosing, Guiding and Terminating.
  Each utterance is logged with its role, type, text and the phase in force when it was added,
  and it bumps that phase's turn counter. When the counter reaches `MAX_TURNS_PER_PHASE` (5),
  the dialogue moves to the next phase. Finishing the last phase marks the dialogue completed,
  and a completed dialogue accepts no more utterances. `get_user_conversation` keeps only the
  entries spoken by the user or the simulated client.
- A `MITIFeedback` sheet is an append-only list of `Criteria` evaluations. `get_total_feedback`
  demands exactly four evaluations and turns them into a map keyed by criterion name.

Everything is in one module, `Template` (`template.dfy`):

- Python's `Role` literal becomes a four-constructor datatype.
- A logged utterance (a dict in Python) becomes the `Entry` datatype.
- `Criteria` becomes a datatype, since no field is ever updated after construction.
- `Dialogue` and `MITIFeedback` are classes with the same fields as the Python classes. Their
  lists are `seq` fields that the methods reassign.
- The Python `assert`s (lines 26 and 50) become `requires` clauses.
- `Dialogue`'s methods are proved against pure specification functions over a snapshot
  datatype `DialogueState`: `AfterPhaseUpdate` for `update_phase` and `AfterUtterance` for
  `add_utterance`.
- Every dialogue keeps the invariant `WellFormed`, whatever mix of `add_utterance` and
  `update_phase` calls built it. `Dialogue.Valid()` is this invariant. It says:
  - the phase index is in 0..3 and every count is in 0..5;
  - the phases after the current one are untouched;
  - a full current phase means the dialogue is completed, and only the last phase can be
    completed;
  - there is one entry per counted turn.
- `update_phase` is public, so a caller can end a phase early. A dialogue moved on by
  `add_utterance` alone keeps the stronger invariant `OnSchedule`. It says:
  - the phases before the current one are full;
  - the k-th entry was logged in phase k / 5;
  - the dialogue is completed exactly when all 20 turns are logged.
- The lemmas about these functions state the dialogue's guarantees.
- `dict(zip(key_list, entries))` becomes `ZipToMap` over `Names(entries)`. It inserts the
  pairs from first to last, so a repeated criterion name keeps its last evaluation.

## Model

| member | source | states |
|---|---|---|
| Template.MITIFeedback.constructor | reflex-chat/chat/template.py:18-19 | a new feedback sheet has no entries |
| Template.MITIFeedback.StoreEvaluation | reflex-chat/chat/template.py:21-23 | one `Criteria` with the given name, score and feedback is appended at the end; earlier entries are unchanged |
| Template.MITIFeedback.GetTotalFeedback | reflex-chat/chat/template.py:25-28 | callable only with exactly four entries; the map's keys are exactly the entries' names; each name maps to the last entry carrying it; there are 1 to 4 keys, and exactly 4 when the names are distinct |
| Template.ZipToMap | reflex-chat/chat/template.py:28 | zipping never yields more keys than pairs |
| Template.ZipToMapKeys | reflex-chat/chat/template.py:28 | a value is a key of the zipped map if and only if it occurs in the key list |
| Template.ZipToMapLastWins | reflex-chat/chat/template.py:28 | a key maps to the value paired with its last occurrence |
| Template.ZipToMapDistinct | reflex-chat/chat/template.py:28 | with pairwise distinct keys no pair is lost: the map has as many keys as there are pairs |
| Template.Conversation | reflex-chat/chat/template.py:80 | the filtered conversation is never longer than the log |
| Template.ConversationMembers | reflex-chat/chat/template.py:80 | an entry is in the conversation if and only if it is in the log and its role is user or client |
| Template.ConversationConcat | reflex-chat/chat/template.py:80 | filtering commutes with concatenation, so the log's order and multiplicity are preserved |
| Template.ConversationIdempotent | reflex-chat/chat/template.py:80 | filtering the conversation again changes nothing |
| Template.Dialogue.GetUserConversation | reflex-chat/chat/template.py:78-80 | the result is the order-preserving filter `Conversation` of the dialogue's log: exactly its user and client entries, and no longer than the log |
| Template.InitialOnSchedule | reflex-chat/chat/template.py:31-38 | a fresh dialogue (phase 0, counts [0,0,0,0], no entries, not completed) is on schedule and well formed |
| Template.Dialogue.constructor | reflex-chat/chat/template.py:31-38 | a new dialogue is in phase 0 with counts [0,0,0,0], no entries and not completed; it is valid and on schedule |
| Template.Dialogue.UpdatePhase | reflex-chat/chat/template.py:40-46 | callable in any state; below the last phase the index goes up by one; in the last phase the dialogue becomes completed and the index stays; counts and entries are unchanged; a valid dialogue stays valid |
| Template.AfterPhaseUpdateWellFormed | reflex-chat/chat/template.py:40-46 | a phase update keeps every dialogue invariant: the index stays in 0..3, and only the last phase can be completed |
| Template.CompletedIsTerminal | reflex-chat/chat/template.py:40-46 | on a completed dialogue a phase update changes nothing: it stays completed, in the last phase |
| Template.EarlyCompletion | reflex-chat/chat/template.py:40-46 | four phase updates on a fresh dialogue complete it with no entries; that state is well formed but not on schedule |
| Template.Dialogue.AddUtterance | reflex-chat/chat/template.py:48-76 | refused on a completed dialogue; appends one entry tagged with the phase in force before any transition; bumps only the current phase's count; moves on or completes when that count reaches 5; keeps the dialogue valid, and keeps it on schedule if it was |
| Template.AfterUtteranceWellFormed | reflex-chat/chat/template.py:48-76 | adding an utterance to any unfinished, well-formed dialogue keeps it well formed |
| Template.AfterUtteranceAppends | reflex-chat/chat/template.py:65-76 | on any well-formed dialogue, the log grows by exactly the given entry under the pre-transition phase; only the current count grows, by one; the phase advances, or the dialogue completes in the last phase, exactly when that count reaches 5 |
| Template.WellFormedBounds | reflex-chat/chat/template.py:65-76 | for every dialogue the phase index is in 0..3, every count is in 0..5, and the number of entries equals the sum of the counts, at most 20 |
| Template.OnScheduleWellFormed | reflex-chat/chat/template.py:65-76 | a dialogue on schedule is well formed |
| Template.AfterUtteranceOnSchedule | reflex-chat/chat/template.py:65-76 | adding an utterance to an unfinished dialogue that is on schedule keeps it on schedule |
| Template.OnScheduleBounds | reflex-chat/chat/template.py:65-76 | for a dialogue moved on only by `add_utterance`, the entry count is 5 per finished phase plus the current count, at most 20 |
| Template.CompletedIffAllTurns | reflex-chat/chat/template.py:72-76 | for a dialogue moved on only by `add_utterance`, it is completed if and only if all 20 turns have been logged |
| Template.AfterUtteranceConversation | reflex-chat/chat/template.py:65-80 | adding an utterance extends the user conversation by the new entry when the user or client spoke, and leaves it unchanged otherwise |
| Template.Replay | reflex-chat/chat/template.py:48-76 | a sequence of `add_utterance` calls that fits into the remaining turns keeps the dialogue on schedule and adds one entry each |
| Template.ReplayEntries | reflex-chat/chat/template.py:65-70 | replaying keeps the earlier log and logs each utterance's role, type and text in the order given |
| Template.RunFromInitial | reflex-chat/chat/template.py:31-76 | from a fresh dialogue moved on only by `add_utterance`, 20 utterances complete it and fewer do not; the k-th utterance is logged as given in phase k / 5 |

## Left out

- `reflex-chat/chat/state.py` is not part of this model. Every operation there reads or writes a MongoDB collection, streams from the OpenAI API, reads environment variables, or drives the Reflex UI through async generators.
- `min_turns_per_phase` (`MIN_TURNS_PER_PHASE` = 2) is stored by the constructor but never read. The model keeps it as a constant field, and no property depends on it.
- `ChatDocument` and `CounselingCategory` are type declarations with no behaviour.
- Python objects are references, so `get_total_feedback` returns a map whose values alias the stored `Criteria` objects. The model uses immutable values, which is equivalent because no `Criteria` is ever modified.
- `Role` is only a type hint in Python; the model's datatype admits just the four listed roles.
- Python dicts remember key insertion order; the model's `map` does not. `GetTotalFeedback` therefore says nothing about the order of the keys. No code in `template.py` relies on that order.
- `get_user_conversation` returns references to the stored entry dicts, so mutating a returned entry would change the dialogue's log. The model returns immutable values and does not capture that aliasing. No code in `template.py` mutates a returned entry.
