# The inline renderer, modelled and proved in Dafny

The inline renderer prints an agent's transcript into the terminal's scrollback and redraws a
small live region below it. This project models its stateful cores and proves what they keep,
for every input and every run:

- **Terminal writer.** `Terminal.dfy` is a small terminal: scrollback and screen as one tape of
  rows, a cursor and a pen, with the controls of ECMA-48 the writer uses (sections 8.3.19,
  8.3.20, 8.3.22, 8.3.39, 8.3.41 and 8.3.117). `Term.dfy` is the writer, a class that repaints
  only changed rows and tracks the cursor by arithmetic. Its invariant says that the tape which
  everything sent so far draws is everything printed, in order and once, followed by the live rows.
- **Styles and escapes.** `Ansi.dfy` has the printer of styled lines, the parser of colored
  text, and the proof that they undo each other; `Painting.dfy` says what a line looks like by its
  own characters, graphemes and columns, and `Codes.dfy` what is sent and read number by number.
- **Text.** `Width.dfy` (truncating and wrapping), `Editor.dfy` (rows, cursor, undo, history) with
  `Keystrokes.dfy` (what each key does), `Chrome.dfy` (the input box), `Diff.dfy` and
  `Hunks.dfy` (the line diff), `Output.dfy` (bounded output).
- **Session.** `Paragraphs.dfy`, `Transcript.dfy` and `Prompts.dfy` describe held blocks, replies,
  tools, groups and prompts as values; `Effects.dfy`, `Cuts.dfy` and `Answers.dfy` say what each event
  does to the blocks, where replies are split, and what each key does to a prompt. `History.dfy`
  proves the invariants of every run, `Scrollback.dfy` that the blocks printed spell what was
  received, `Thoughts.dfy` that blocks of reasoning hold what they were sent, `Orphans.dfy` what
  unfinished blocks wait for, and `Stalls.dfy` what becomes of those that wait for nothing.
  `Session.dfy` is the session as a class with the source's fields; each method is proved to do what
  those functions say. `Wakeup.dfy` is the frame timer, `Activity.dfy` and `Browsing.dfy` the browser
  over background jobs, `Compact.dfy` and `Trails.dfy` the bounded trail of a busy turn.
- **Persistence.** `Persist.dfy` is the coalescer between the event stream and the store, and
  `Saving.dfy` what it does with each event.
- **SDK.** `Lifecycle.dfy` and `Handles.dfy` are the turn, stream and tool handles of the Node
  SDK, and `Delivery.dfy` what each call on them sends.

`Filters.dfy` says what it means to keep some elements of a list.

Where the source loops and updates fields, the model does too, and each such method is proved
against a specification function; the theorems are lemmas about those functions. A grapheme is
an atom with a width. I/O, clocks and the terminal are parameters. Nothing was executed: the
claims are those the verifier checks.

## What does not hold

Each of these is a lemma: the exact condition, or a run that shows it:

- Drawing an empty frame over a single row on the bottom line scrolls once more than repainting
  would (`Term.InlineTerminal.Draw`, `Term.EmptyFrameScrolls`).
- `truncate` with `max` 0 returns a one-cell ellipsis (`Width.TruncatedFitsIff`), and `wrap`
  overflows when the indent leaves no room for a grapheme (`Width.WrapOverflows`).
- A box narrower than 8 columns is wider than asked for, and so is one around a text that does not
  fit, which takes a grapheme wider than the text area (`Chrome.BoxIsExactIff`,
  `Chrome.WindowFitsIff`).
- A vertical move may land on a soft wrap, which belongs to the row after
  (`Editing.VerticalMoveLands`).
- Output appended in chunks depends on the chunks: a carriage return that opens a chunk does not
  replace what earlier chunks left on the line, so a progress bar piles up; a CR LF cut in two
  loses its line (`Output.ChunkingMattersWithCr` shows both for all words); and an escape sequence
  cut in two leaves its end in the text (`Output.CutInsideEscape`). `Output.OneCutIff` says exactly
  when for one cut of any text, `Output.ChunkingIff` for any chunks with no cut inside a sequence,
  and `Output.SameIffLines` line by line for any.
- A reply is split outside code fences, says the doc comment. The code flips a flag at every line
  that starts like a fence, so a fence of the other kind inside one ends it
  (`Paragraphs.StrayMarkSplits`); the flag is right exactly as `Paragraphs.ToggleIsRightIff` says.
- A start under the id of an open stream or a running tool orphans a block: nothing finishes the
  old reply, or the old tool in its row or group, and what is held behind that block is not printed
  until the turn ends (`Orphans.StepLinkedIff`, `Stalls.RestartOrphans`,
  `Stalls.OrphanHoldsPrinting`).
- A run of typing goes on over history steps and over going to the start or end of a line, so one
  Undo then takes back more than the last text (`Editing.UndoAfterMovesIff`,
  `Editing.UndoSkipsHistory`).
- Two updates of a background item are not always one: a status that changes and changes back
  forgets that a stop was asked for (`Activity.UpdatesMergeIff`).
- Messages of the SDK are bracketed per handle; per id only when no id is used twice in a turn
  (`Lifecycle.IdsAreBracketedIff`).
- `settle` leaves the map of reasoning streams, so reasoning that goes on for such a stream is
  lost (`History.ReasoningAfterSettle`).
- The SDK says that a caller of `permission` never hangs. It does when the host reuses the id of
  a request still pending (`Lifecycle.EndAnswersAllIff`); the model follows the code.
- A diff of texts beyond the table limit lists all lines as added and none as removed
  (`Diff.DiffIsScriptIff`).
- The first chunk of a saved tool run is not capped, however long; from the second chunk on the run is
  the longest suffix of whole characters within 64 KB (`Persist.RunFitsIff`,
  `Persist.TailIsLongest`).
- A permission queued behind a list is overtaken by a later list, which replaces the open one
  (`Prompts.QueueIsOvertakenIff`, `Prompts.ListOvertakesPermission`); order of arrival holds among
  permissions.

## Model

| member | source | states |
|---|---|---|
| Term.InlineTerminal.Draw | crates/inline/src/term.rs:107-114 | After a redraw the screen, which is what everything sent since the start draws, shows the rows above the live region untouched and then exactly the encoded bottom `height-1` rows of the frame; the tracked cursor row is the true one and no row wrapped; the cursor is where the frame asks or hidden; the tape has grown by exactly the scrolls that were needed, and is the tape of a full repaint exactly unless an empty frame replaces a single row on the bottom line. |
| Term.InlineTerminal.Print | crates/inline/src/term.rs:87-105 | The history lines are appended, in order and each once, to everything printed before, and the frame follows them; nothing above changes, however many scrolls it takes. |
| Term.InlineTerminal.Finish | crates/inline/src/term.rs:143-161 | The live rows become history, the cursor is visible below them, and nothing stays live. |
| Term.InlineTerminal.ClearLive | crates/inline/src/term.rs:171-179 | The live region is erased; the tape keeps its length and everything printed. |
| Term.InlineTerminal.Suspend | crates/inline/src/term.rs:163-169 | As clearing, with the cursor shown. |
| Term.InlineTerminal.MoveToTop | crates/inline/src/term.rs:196-203 | From the tracked cursor row, arithmetic alone reaches the first live row. |
| Term.InlineTerminal.Flush | crates/inline/src/term.rs:269-272 | What is sent and the screen change together: the screen stays what everything sent draws. |
| Term.InlineTerminal.DrawRows | crates/inline/src/term.rs:205-267 | Rewriting only the rows whose encoding changed, dropping extra rows and adding missing ones leaves the tape of the new rows; the cursor is parked by relative moves from the last row reached. |
| Term.InlineTerminal.WriteRow | crates/inline/src/term.rs:205-249 | A row equal to the one drawn there may be skipped: what is on screen is the new row either way. |
| Term.InlineTerminal.constructor | crates/inline/src/term.rs:50-62 | A terminal taken over at the start of a blank row is a consistent state with nothing live and nothing sent. |
| Term.EncodeRow | crates/inline/src/term.rs:276-295 | The tokens of a row paint the clipped line from a plain pen and end plain. |
| Term.ClipFits | crates/inline/src/term.rs:276-295 | A row, clipped or not, paints no more cells than the width, so it cannot wrap. |
| Term.RepaintShows | crates/inline/src/term.rs:196-267 | The reference writer: go up, erase everything below, paint every row. It shows the rows above untouched and then the new rows. |
| Term.DrawIsRepaint | crates/inline/src/term.rs:107-114 | The incremental writer leaves the same tape as the reference exactly unless an empty frame replaces a single row on the bottom line, where it scrolls once more. |
| Term.EmptyFrameScrolls | crates/inline/src/term.rs:107-114 | A terminal whose writer has drawn one row on the bottom line: an empty frame scrolls it once more than repainting. |
| Terminal.PaintRow | crates/inline/src/term.rs:205-249 | Sending a row's tokens at the start of a row and erasing to its right replaces that row and no other. |
| Sgr.SgrRoundTrip | crates/inline/src/style.rs:121-132 | The parser of `ansi.rs`, given the parameters the printer wrote for a style, returns that style from any prior style. |
| Sgr.ParamsReadBack | crates/inline/src/style.rs:34-65 | The decimal parameters written for a style parse back to its numbers. |
| Sgr.WriteSgr | crates/inline/src/style.rs:121-132 | The characters written are the escape sequence of the style's numbers. |
| Sgr.WriteColor | crates/inline/src/style.rs:34-65 | The characters written for a color are its numbers, each behind a separator. |
| Sgr.ApplySgr | crates/inline/src/ansi.rs:102-158 | The loop over the parameters, extended colors included, is the recursive reading of their numbers. |
| Ansi.Encode | crates/inline/src/style.rs:195-234 | Reading the tokens sent for a line gives exactly the painted cells, which `Painting.LineIsSent` states character by character, and leaves the pen plain. |
| Ansi.ParseAnsi | crates/inline/src/ansi.rs:7-69 | The parsed lines say exactly the styled characters and line ends of the text, without a final line end. |
| Ansi.StripAnsi | crates/inline/src/ansi.rs:71-74 | The characters of the parsed lines, joined by newlines. |
| Ansi.SaysOver | crates/inline/src/ansi.rs:7-69 | A text cut in two says what its first part says and then its second, read from where the sequence ends that the first leaves open. |
| Ansi.ItemsAreClean | crates/inline/src/ansi.rs:7-69 | No control character survives reading, whatever the text. |
| Ansi.ParseUndoesText | crates/inline/src/ansi.rs:7-69 | Parsing the characters of clean tokens gives back the characters they paint, with their styles. |
| Ansi.EncodeRoundTrip | crates/inline/src/style.rs:195-234 | Parsing what is encoded for any line gives back its painted cells, and these hold no control or direction characters. |
| Ansi.PaintLineIsSafe | crates/inline/src/style.rs:195-234 | No control or bidirectional format character is painted. |
| Ansi.PaintLineWidth | crates/inline/src/style.rs:195-234 | A line that fits a width paints no more cells than it, fill included. |
| Width.Truncate | crates/inline/src/width.rs:30-46 | The loop computes the longest prefix that leaves a cell for the ellipsis. |
| Width.TruncatedFitsIff | crates/inline/src/width.rs:30-46 | The result fits `max` exactly when `max` is not 0 or the text has no width: with `max` 0 a one-cell ellipsis is returned. |
| Width.TruncatedKeepsMost | crates/inline/src/width.rs:30-46 | A cut text is a prefix and an ellipsis, and no longer prefix would fit. |
| Width.EllipsizeMiddle | crates/inline/src/width.rs:50-84 | The two loops compute the head and the tail around the ellipsis. |
| Width.EllipsizedKeepsEnds | crates/inline/src/width.rs:50-84 | A long text keeps a head and a disjoint tail, each as long as its share of the cells allows, and fits. |
| Width.EllipsizedFitsIff | crates/inline/src/width.rs:50-84 | The result fits exactly when `max` is not 0 or the text has no width. |
| Width.LayOut | crates/inline/src/width.rs:115-173 | The greedy loop ends, and yields a layout: every row keeps its limit unless it is a single grapheme, breaks are at word ends or inside words too wide for any row, and each break was forced. |
| Width.SplitWord | crates/inline/src/width.rs:160-171 | Splitting an overlong word keeps the layout consistent grapheme by grapheme; a row is broken only when the next grapheme would not fit and the row is not empty. |
| Width.Wrap | crates/inline/src/width.rs:88-196 | The rows returned are the rows of such a layout, trimmed, indented and filled. |
| Width.FinishRows | crates/inline/src/width.rs:175-195 | Each row is trimmed at its end and, from the second on, indented. |
| Width.WrapFits | crates/inline/src/width.rs:88-196 | When the indent leaves room for the widest grapheme, every row is at most the width, indent included. |
| Width.WrapOverflows | crates/inline/src/width.rs:88-196 | When it does not, there is a line of graphemes no wider than that for which no row layout of this kind fits: the condition is exact. |
| Width.FittingLineStaysWhole | crates/inline/src/width.rs:115-173 | A line that fits is one row. |
| Width.WordsSurvive | crates/inline/src/width.rs:88-196 | The graphemes that are not white space survive in order with their styles, and each row is its indent and a body. |
| Width.SpansKeepCells | crates/inline/src/width.rs:108-113 | Regrouping cells into spans of one style loses no cell and no style. |
| Width.SpansKeepWidth | crates/inline/src/width.rs:108-113 | Regrouping keeps the width. |
| Diff.DiffTexts | crates/inline/src/diff.rs:8-50 | The result is the edit script within the context of a change, or all lines added when the table would be too large. |
| Diff.FillTable | crates/inline/src/diff.rs:19-24 | Every cell of the table is the length of a longest common subsequence of the two suffixes. |
| Diff.Walk | crates/inline/src/diff.rs:27-41 | The walk over the table pushes the edit script. |
| Diff.KeepShown | crates/inline/src/diff.rs:42-49 | The two filter passes keep exactly the lines within the context of a change. |
| Diff.ScriptIsCorrect | crates/inline/src/diff.rs:8-50 | Without the added lines the script is `before`, without the removed ones `after`, and every line has the number of its side. |
| Diff.NumbersIncrease | crates/inline/src/diff.rs:27-41 | Numbers strictly increase along each side. |
| Diff.LcsIsUpperBound | crates/inline/src/diff.rs:19-24 | No common subsequence is longer than the table says. |
| Diff.ScriptKeepsLongest | crates/inline/src/diff.rs:8-50 | The unchanged lines are a common subsequence, and a longest one. |
| Diff.ScriptIsMinimal | crates/inline/src/diff.rs:8-50 | No script that turns `before` into `after` has fewer changes. |
| Diff.FilterKeepsChanges | crates/inline/src/diff.rs:42-49 | The context filter drops no change and reorders none. |
| Diff.EmptyDiffIffEqual | crates/inline/src/diff.rs:42-49 | The filtered script is empty exactly when the texts are equal. |
| Diff.WideContextShowsAll | crates/inline/src/diff.rs:42-49 | With enough context a changed script is shown whole. |
| Diff.DiffIsScriptIff | crates/inline/src/diff.rs:11-17 | With enough context the result turns one text into the other exactly when the table limit is not exceeded. |
| Diff.SummaryCounts | crates/inline/src/diff.rs:86-90 | The counts shown with a diff are the lines of each side beyond the longest common subsequence, whatever the context. |
| Diff.CountsOfChanges | crates/inline/src/diff.rs:86-90 | Only changes are counted. |
| Diff.UnchangedIsCommon | crates/inline/src/diff.rs:8-50 | The context lines of any script are a common subsequence of its two sides. |
| Persist.Coalescer.Push | crates/tui/src/persist.rs:41-78 | Pushing an event changes the pending runs, their order and the last bodies, and releases events, exactly as the step function says, which the lemmas of `Saving` state run by run. |
| Persist.Coalescer.FlushAll | crates/tui/src/persist.rs:82-85 | Flushing releases every pending run in order. |
| Persist.Coalescer.AppendText | crates/tui/src/persist.rs:87-105 | A run is begun, or grows by a piece and is trimmed to a whole-character suffix. |
| Persist.Coalescer.TakeKeys | crates/tui/src/persist.rs:107-118 | The named runs leave both the map and the order. |
| Persist.PendingIsPieces | crates/tui/src/persist.rs:41-105 | Over every input with flushes anywhere, a pending run is the first piece since its last release with the text of all pieces since. |
| Persist.OrderListsPending | crates/tui/src/persist.rs:41-118 | `order` lists the keys of `pending`, each once. |
| Persist.FlushEmpties | crates/tui/src/persist.rs:82-85 | After a flush nothing is pending. |
| Persist.SavedForRun | crates/tui/src/persist.rs:107-118 | A release saves one event for the run, under the number of its first piece. |
| Persist.TailOfTail | crates/tui/src/persist.rs:90-98 | Trimming after every chunk gives the same suffix as trimming once at the end. |
| Persist.TailIsLongest | crates/tui/src/persist.rs:92-98 | A trimmed text is the longest suffix within the limit that starts at a character. |
| Persist.RunFitsIff | crates/tui/src/persist.rs:87-105 | The run of a tool is saved within the cap exactly when it has more than one chunk or its one chunk is within the cap. |
| Persist.CutAt | crates/tui/src/persist.rs:93-97 | The cut is the first character boundary at or after the excess. |
| Persist.TextConserved | crates/tui/src/persist.rs:41-118 | For every token stream, what was saved and what is pending are together the text received. |
| Persist.RunsIncrease | crates/tui/src/persist.rs:41-118 | The saved runs of a stream have increasing numbers, below that of the pending run. |
| Persist.SortedIsUnique | crates/store/src/lib.rs:193-197 | Events with increasing numbers have only one order when loaded by number. |
| Persist.ReplayShowsSameText | crates/tui/src/inline_app.rs:464-505 | Loading everything saved, ordered by `seq`, gives each stream the concatenated token text it received, for any chunks and flushes. |
| Persist.FlushKeepsArrivalOrder | crates/tui/src/persist.rs:82-118 | A flush releases runs in the order of their first pieces. |
| Persist.OthersSavedOnce | crates/tui/src/persist.rs:54-77 | Every other event is saved at once, except registrations and statuses equal to the last of their type. |
| Persist.LastIsLastBody | crates/tui/src/persist.rs:68-75 | `last` holds the last body of each repeated type. |
| Output.AppendOutput | crates/inline/src/session.rs:2560-2576 | A chunk continues the last line and adds the rest, carriage returns applied and escapes stripped line by line, keeping the newest lines. |
| Output.ChunkingDoesNotMatter | crates/inline/src/session.rs:2557-2576 | For text without carriage returns and escapes any chunking leaves the printable part of the last lines of the whole text. |
| Output.SameIffLines | crates/inline/src/session.rs:2557-2576 | For any text and chunks: chunks and whole show the same exactly when every line that is kept shows, cleaned piece by piece, what it shows cleaned whole. |
| Output.ChunkingIff | crates/inline/src/session.rs:2557-2576 | For any list of chunks with no cut inside an escape sequence: chunks and whole show the same exactly when on every line that is kept no carriage return comes in a later piece than something that shows, and a line end cut in two loses nothing, or what it loses turns into what it leaves. |
| Output.OneCutIff | crates/inline/src/session.rs:2557-2576 | For any text and one cut: exactly when the line cut is pushed past the cap; or, for a cut CR LF, nothing showed of the line; or, for a carriage return after the cut, nothing showed before it; or else what follows shows the same read from where it ends the escape sequence that is cut. |
| Output.CutOutside | crates/inline/src/session.rs:2557-2576 | A cut outside every escape sequence matters only for carriage returns. |
| Output.CutInsideEscape | crates/inline/src/session.rs:2557-2576 | For all words a and b with a color set between them: a cut inside that sequence leaves its end in the text. |
| Output.ChunkingMattersWithCr | crates/inline/src/session.rs:2557-2576 | For all words a and b: the chunks a and CR b show ab where the whole shows b, and a line end cut between CR and LF shows an empty line where the whole shows a. |
| Output.SplitAppend | crates/inline/src/session.rs:2560-2576 | Splitting a concatenation joins the last line of one part with the first of the next. |
| Output.LastJoined | crates/inline/src/activity.rs:246-267 | Dropping old lines before or after a chunk makes no difference. |
| Editing.Rows | crates/inline/src/editor.rs:347-377 | The nested loops compute the visual rows. |
| Editing.VisualRowsTile | crates/inline/src/editor.rs:347-377 | Rows tile the buffer with gaps only at newlines, and a row is within the width or one grapheme. |
| Editing.OwnerIsUnique | crates/inline/src/editor.rs:410-420 | At most one row owns an offset. |
| Editing.OwnerExists | crates/inline/src/editor.rs:410-420 | Every offset of the buffer is owned by a row. |
| Editing.CursorRow | crates/inline/src/editor.rs:410-420 | The row found owns the cursor whenever any row does. |
| Editing.CursorPos | crates/inline/src/editor.rs:379-384 | The column is the width of the owning row before the cursor. |
| Editing.VerticalMoveLands | crates/inline/src/editor.rs:386-408 | A vertical move ends in the row aimed at exactly when that row is wider than the column, is the last, or ends at a newline; at a soft wrap the next row owns the cursor. |
| Editing.Editor.HandleKey | crates/inline/src/editor.rs:133-252 | Every key changes the buffer, cursor, undo stack, history place, draft and kill text as the key function says, which the lemmas of `Keystrokes` state by graphemes and offsets. |
| Editing.Editor.EditBuffer | crates/inline/src/editor.rs:133-252 | Editing keys take a snapshot and splice the buffer, as the same lemmas say. |
| Editing.Editor.TakeSnapshot | crates/inline/src/editor.rs:259-268 | A snapshot is taken except within a run of typing; the oldest of 200 is dropped. |
| Editing.Editor.SubmitBuffer | crates/inline/src/editor.rs:270-288 | A buffer that is not blank is handed over and remembered once. |
| Editing.Editor.GoPrev | crates/inline/src/editor.rs:313-329 | Going back stores the draft on the first step. |
| Editing.Editor.GoNext | crates/inline/src/editor.rs:331-345 | Going forward past the newest entry brings the draft back. |
| Editing.Editor.MoveVertical | crates/inline/src/editor.rs:386-408 | The cursor goes to the offset nearest the column in the row aimed at, or nothing changes. |
| Editing.UndoRestores | crates/inline/src/editor.rs:259-268 | Undo takes back exactly one edit: buffer, cursor and older snapshots. |
| Editing.UndoTakesBackTyping | crates/inline/src/editor.rs:259-268 | One Undo takes back a whole uninterrupted run of typing. |
| Editing.UndoTakesBackLastIff | crates/inline/src/editor.rs:259-268 | One Undo takes back just the text typed last exactly when no run of typing was open, or the buffer and cursor are as the run found them. |
| Editing.UndoAfterMovesIff | crates/inline/src/editor.rs:190-213 | Between two texts typed, over any keys that move or walk the history: exactly when one of them stopped the run, which going to the start or end of a line and history steps do not, or they left the buffer as before the run. |
| Editing.UndoSkipsHistory | crates/inline/src/editor.rs:313-329 | Typing, a step into the history, typing and Undo bring back the buffer from before the first text. |
| Editing.UndosRestore | crates/inline/src/editor.rs:259-268 | As many Undos as edits, up to the 200 kept, bring back the start. |
| Editing.DraftComesBack | crates/inline/src/editor.rs:313-345 | As many steps forward as back bring back the draft. |
| Chrome.InputBox | crates/inline/src/chrome.rs:109-166 | The box shows the placeholder, or a window of the buffer's rows that holds the row that owns the cursor, and gives the cell of the cursor in it. |
| Chrome.VisibleRows | crates/inline/src/chrome.rs:132-145 | The window is of at most `max_rows` rows and holds the cursor's row. |
| Chrome.DrawBox | crates/inline/src/chrome.rs:148-165 | The rows are drawn between the borders. |
| Chrome.BoxIsExactIff | crates/inline/src/chrome.rs:109-166 | For every non-empty list of texts, every row of the box is exactly `width` cells exactly when `width` is at least 8 and each text fits between the borders. |
| Chrome.WindowFitsIff | crates/inline/src/chrome.rs:132-145 | The editor's rows that show fit between the borders exactly when none of their graphemes is wider than the text between them. |
| Chrome.PlaceholderFits | crates/inline/src/chrome.rs:125-130 | So does the placeholder, cut if need be. |
| Chrome.CursorInside | crates/inline/src/chrome.rs:145-165 | The cursor cell is inside the borders when its row fits. |
| Compact.CompactState.PushBead | crates/inline/src/compact.rs:132-143 | The beads are the last 32 of the trail that forgets nothing, and the index is its part that points at them. |
| Compact.CompactState.ToolStarted | crates/inline/src/compact.rs:144-154 | A started tool is indexed under its own bead. |
| Compact.CompactState.ToolFinished | crates/inline/src/compact.rs:155-185 | A finished tool leaves the index and closes its bead if that is still kept; a file counts only then. |
| Compact.CompactState.AgentStart | crates/inline/src/compact.rs:186-195 | An agent is listed as open and its bead is pushed. |
| Compact.CompactState.AgentDone | crates/inline/src/compact.rs:196-205 | The first open agent of the number is done. |
| Compact.CompactState.Clear | crates/inline/src/compact.rs:108-110 | The trail starts anew. |
| Compact.IndexPointsIntoWindow | crates/inline/src/compact.rs:132-143 | The index is injective, in range, and points at the bead the unbounded index points at. |
| Compact.PushShifts | crates/inline/src/compact.rs:132-143 | A push on a full trail drops the oldest bead and shifts the index by one. |
| Compact.StartIndexes | crates/inline/src/compact.rs:144-154 | A start under an id already known moves that id to the new bead. |
| Compact.FinishIndexes | crates/inline/src/compact.rs:155-185 | Finishing an evicted tool changes no kept bead. |
| Compact.EveryRunIsOk | crates/inline/src/compact.rs:132-185 | Over every run no two running tools share a bead, and the tools held are exactly those whose last event is a start, each at the bead of that start, as it was pushed. |
| Compact.IndexedIffRecent | crates/inline/src/compact.rs:132-185 | The bounded index holds a tool exactly when its last event is a start with fewer than 32 beads after its own. |
| Compact.EntrySurvives | crates/inline/src/compact.rs:132-143 | An entry stays until its bead is evicted or its tool ends. |
| Compact.AgentsFinishInOrder | crates/inline/src/compact.rs:186-205 | On every run the agents of a number finish in the order in which they began, each with its own report; a report that finds none open is dropped. |
| Paragraphs.ParagraphSplit | crates/inline/src/session.rs:2538-2555 | The offset found is the last one after a blank line where the toggle over lines that start like a fence is off, and none is found exactly when there is none. |
| Paragraphs.CutKeepsText | crates/inline/src/session.rs:1907-1948 | A split loses nothing: the consumed part is the printed head and white space, and with the tail it is the reply; the tail does not start with a newline. |
| Paragraphs.CutsAreBoundaries | crates/inline/src/session.rs:1907-1948 | Wherever printing stopped before, the next stop is a boundary of the whole text: after a blank line, with the toggle over the whole text off. |
| Paragraphs.BoundaryAppend | crates/inline/src/session.rs:2540-2555 | A boundary of the text after a boundary is a boundary of the whole text. |
| Paragraphs.FencedAppend | crates/inline/src/session.rs:2540-2555 | The toggle over whole lines and then more is the toggle over all: it can go on from the state that the lines before left. |
| Paragraphs.ToggleIsRightIff | crates/inline/src/session.rs:2538-2555 | The toggle says whether a fence is open, as read by mark and length of the line that opened it, exactly when an even number of lines before looked like a fence inside one they do not end. |
| Paragraphs.BoundaryIsOutsideIff | crates/inline/src/session.rs:2538-2555 | So a split is outside every fence exactly then. |
| Paragraphs.StrayMarkSplits | crates/inline/src/session.rs:2538-2555 | A text that is split inside a fence: a line of backticks within a fence of tildes. |
| Paragraphs.CompletionKeepsText | crates/inline/src/session.rs:480-491 | A final text that extends what was printed is that, newlines, and what is left; one that does not leaves what was streamed. |
| Transcript.GetKeep | crates/inline/src/session.rs:1105-1110 | Dropping blocks by a test keeps the others under their ids. |
| Transcript.CloseGood | crates/inline/src/session.rs:1871-1885 | Closing the open group keeps every link, and finishes the group exactly when nothing in it runs. |
| Transcript.AddTokenGood | crates/inline/src/session.rs:447-475 | A token keeps every link. |
| Transcript.CompleteMessageGood | crates/inline/src/session.rs:476-494 | So does a completed message. |
| Transcript.StartToolGood | crates/inline/src/session.rs:495-553 | So does a tool that starts, in a row of its own, in the open group, or in a new one, even under an id already running. |
| Transcript.FinishToolGood | crates/inline/src/session.rs:562-665 | So does one that ends, plan rows dropped or kept. |
| Transcript.SettleStopsEverything | crates/inline/src/session.rs:1501-1558 | After `settle` the session is not busy, no held block has a running tool, and streams, tool ids, plan rows and the open group are empty. |
| Transcript.TakeHistoryGood | crates/inline/src/session.rs:1564-1587 | Printing keeps every link. |
| Transcript.StepGood | crates/inline/src/session.rs:339-1116 | Every event keeps: ids unique; each running tool id at an unfinished place of its own that is running; the open group unclosed and unfinished; finished blocks without running tools; an unfinished row running, an unfinished group open or with a tool that runs; each stream at an unfinished reply of its own. |
| Transcript.RunEndsIff | crates/inline/src/session.rs:1826-1885 | An open group of reads goes on exactly until reply text that is not blank, a block, a tool of another kind or the end of the turn; plan updates, reasoning, results and printing leave it open. |
| Orphans.StepLinkedIff | crates/inline/src/session.rs:339-1116 | From a state where every unfinished reply, reasoning and running tool has its stream, entry or id, an event leaves one without exactly when it starts a stream or a tool under an id still in use. |
| Orphans.EveryRunIsLinked | crates/inline/src/session.rs:339-1116 | On every run without such a start each unfinished block is what a stream, a reasoning entry, a tool id or the open group points at. |
| Stalls.LinkedIffNoOrphan | crates/inline/src/session.rs:339-1116 | Every unfinished reply, reasoning and running tool has its stream, entry or id exactly when no block is an orphan: unfinished with nothing pointing at it, or holding a tool that runs under no id. |
| Stalls.RestartOrphans | crates/inline/src/session.rs:403-412 | A start under an id in use orphans a block: the reply of an open stream, the row of a tool, or the group a tool of that id runs in. |
| Stalls.LostStays | crates/inline/src/session.rs:495-553 | A tool that runs under no id, in a row or a group, goes on so under every event but the end of the turn. |
| Stalls.OrphanStays | crates/inline/src/session.rs:339-1116 | An orphan stays one under every event but the end of the turn, even when other ids still point at its group. |
| Stalls.OrphanHoldsPrinting | crates/inline/src/session.rs:1564-1587 | Until then nothing held behind it is printed, over any run. |
| History.NextEvolves | crates/inline/src/session.rs:1564-1587 | Over what is printed and held together, an event adds ids and drops held ones and never swaps two. |
| History.RunsPrintInOrder | crates/inline/src/session.rs:1564-1587 | Over every run each block is printed at most once, finished, and in the order in which blocks were held. |
| History.NextText | crates/inline/src/session.rs:447-494 | An event keeps the account of every unfinished reply: the text taken off it and the text it holds are together the tokens received, and what was taken off ends at a boundary of that text. |
| History.EveryRunIsSound | crates/inline/src/session.rs:339-1116 | Over every run of events and printing: links, identity and order of blocks, and the account of unfinished replies. What the printed blocks themselves spell is `Scrollback.EveryReplyIsTold`. |
| History.CompleteMessageText | crates/inline/src/session.rs:476-494 | A completed reply is finished with the text decided by the final text; no other reply changes. |
| History.FinalTextIsWhole | crates/inline/src/session.rs:476-494 | In every reachable state a final text that extends the printed part is shown whole, and otherwise the streamed text is. |
| History.ReasoningAfterSettle | crates/inline/src/session.rs:413-446 | `settle` keeps the map of reasoning streams: once the stopped blocks are printed, more reasoning for a stream is dropped exactly when that stream was reasoning before. |
| Scrollback.EveryReplyIsTold | crates/inline/src/session.rs:447-494 | Over every run and for every reply, finished, interrupted or not: the paragraphs of it in scrollback, in order and each visible, with the white space dropped behind each, and then its own block spell the tokens received, or the final text up to newlines when that extends what was printed; no printed block is a piece of two replies; only clearing removes a reply. |
| Scrollback.AllReachesScrollback | crates/inline/src/session.rs:1564-1587 | Once the turn is over and its blocks are taken, every reply not cleared is in scrollback whole, its own block behind its paragraphs. |
| Session.Session.CloseGroup | crates/inline/src/session.rs:1871-1885 | The fields change as the value-level function says. |
| Session.Session.Push | crates/inline/src/session.rs:1826-1838 | Anything but reply text, reasoning or a group ends the open group. |
| Session.Session.StreamStarted | crates/inline/src/session.rs:403-412 | A stream starts with an empty reply. |
| Session.Session.ReasoningDelta | crates/inline/src/session.rs:413-446 | Reasoning goes above a reply that has no text yet. |
| Session.Session.TokenDelta | crates/inline/src/session.rs:447-475 | A token that is not blank ends the open group; a delta without a start opens its stream. |
| Session.Session.MessageCompleted | crates/inline/src/session.rs:476-494 | A completed message replaces only what is not printed. |
| Session.Session.ToolStarted | crates/inline/src/session.rs:495-553 | A tool starts in its row or group. |
| Session.Session.ToolFinished | crates/inline/src/session.rs:562-665 | A tool ends in its row or group. |
| Session.Session.Settle | crates/inline/src/session.rs:1501-1558 | The blocks, the plan, the open group and the maps become those of the value-level end of a turn, which `Effects.SettleMeans` states block by block and tool by tool, and the prompts those of `Answers.SettledDesk`. |
| Session.Session.Interrupt | crates/inline/src/session.rs:1491-1497 | The host is told, then everything settles. |
| Session.Session.PhaseChanged | crates/inline/src/session.rs:950-969 | A phase that is not busy settles only if a busy one came before. |
| Session.Session.SplitStreamingParagraphs | crates/inline/src/session.rs:1907-1948 | The leading reply is split in place. |
| Session.Session.TakeHistory | crates/inline/src/session.rs:1564-1587 | The finished blocks at the front leave, and those with something to show are returned in order. |
| Session.Session.OpenPrompt | crates/inline/src/session.rs:1463-1470 | A prompt opens, or waits when it or the open one is a permission. |
| Session.Session.FrameDrawn | crates/inline/src/session.rs:1480-1487 | The arming delay starts at the first frame with the prompt and no form. |
| Session.Session.ResolvePrompt | crates/inline/src/session.rs:1393-1461 | The answer is sent and the next prompt shown as the value-level function says, which `Answers.ConfirmKeys`, `Answers.ListKeys` and `Answers.CancelIff` state key by key. |
| Session.Session.PromptKey | crates/inline/src/session.rs:1327-1391 | A key answers, cancels, moves or filters, or is dropped when the prompt is not armed. |
| Session.CutMarkdown | crates/inline/src/session.rs:1907-1948 | The scan over the lines yields the cut that the text lemmas are about. |
| Prompts.EveryRunIsSound | crates/inline/src/session.rs:1327-1487 | Over every run of requests, keys, frames, forms and settled turns: the queue is empty when nothing is open, queued prompts were never drawn, every permission has one fate, answers leave in order of arrival, and an allowing answer follows by at least 400 ms a frame with that prompt and no form. |
| Prompts.EachPermissionHasOneFate | crates/inline/src/session.rs:1393-1476 | Each permission asked for is pending, answered or dropped: exactly one of these, exactly once. |
| Prompts.NextKeepsOrder | crates/inline/src/session.rs:1463-1476 | Pending permissions leave the line only from its front, or all together when the turn is stopped. |
| Prompts.NextIsRead | crates/inline/src/session.rs:127-143 | Prompts stay what was asked for, and allowing answers stay backed by a drawn frame. |
| Prompts.UnreadKeysAreDropped | crates/inline/src/session.rs:1331-1339 | Before a permission is armed a key changes nothing exactly when it does not cancel, and sends nothing but a denial. |
| Prompts.OnlyPlainPromptsAreReplaced | crates/inline/src/session.rs:1463-1470 | The open prompt is lost to a new one exactly when neither is a permission. |
| Prompts.QueueIsOvertakenIff | crates/inline/src/session.rs:1463-1470 | A new prompt is shown before queued ones exactly when some are queued and neither it nor the open one is a permission. |
| Prompts.ListOvertakesPermission | crates/inline/src/session.rs:1463-1470 | A permission queued behind a list waits for a list opened after it, and the first list is gone. |
| Prompts.SettleOk | crates/inline/src/session.rs:1555-1557 | After a turn settles no permission is open or queued, and a waiting prompt is shown. |
| Prompts.PermissionKeys | crates/inline/src/session.rs:1353-1384 | On an armed permission the keys 1, 2 and 3 answer allow once, allow for the session and deny, Enter answers the option selected, cancelling denies, and no other text answers. |
| Prompts.PermissionsAreNotFiltered | crates/inline/src/session.rs:1353-1390 | No run filters the options of a permission. |
| Wakeup.NextWakeup | crates/inline/src/session.rs:1761-1799 | The wakeup is the earliest of the times asked for, and none exactly when none is asked for. |
| Wakeup.WakeupIsSoonEnough | crates/inline/src/session.rs:1761-1820 | Every wakeup is later than now; while something spins there is one, and until then the frame drawn does not change (unfocused: nor do the seconds shown). |
| Wakeup.TickIsNextFrame | crates/inline/src/session.rs:1774-1778 | The tick is exactly the next frame if and only if a turn is timed or the clock is not negative. |
| Activity.Browser.Upsert | crates/inline/src/activity.rs:165-243 | An item is inserted or updated in place, fields left out keeping their values, and its change is reported. |
| Activity.Browser.Snapshot | crates/inline/src/activity.rs:276-288 | Items missing from a snapshot are dropped, the others updated in turn. |
| Activity.Browser.Update | crates/inline/src/session.rs:1064-1092 | An update, then the browser is put right. |
| Activity.Browser.Log | crates/inline/src/activity.rs:246-267 | Output is appended, carriage returns and escapes applied, to a known item. |
| Activity.Browser.Remove | crates/inline/src/activity.rs:269-271 | An item leaves, then the browser is put right. |
| Activity.Browser.FixBrowser | crates/inline/src/session.rs:2039-2051 | Details of a removed item go back to the list, and the host is told. |
| Activity.Browser.Open | crates/inline/src/session.rs:2027-2035 | The list opens unless the browser is open. |
| Activity.Browser.Press | crates/inline/src/session.rs:1150-1180 | The outcomes of a key are applied in order. |
| Activity.KeyMeans | crates/inline/src/activity.rs:402-519 | A key tells the host the view it leads to, closes, asks to stop the item confirmed, or keeps the view under a confirmation. |
| Activity.EveryRunIsSound | crates/inline/src/activity.rs:402-519 | Over every run the host's last word is the browser's real base view, of an item that exists, and the stop requests are, in order, of confirmations each opened on that item while it was stoppable and active. |
| Activity.ChangesAreReportedOnce | crates/inline/src/activity.rs:165-243 | The same update again reports no change. |
| Activity.UpdatesMergeIff | crates/inline/src/activity.rs:165-243 | Two updates of an item are one with the later fields exactly unless a stop was asked for, the first changes the status and the second changes it back. |
| Activity.OrderedIsSorted | crates/inline/src/activity.rs:302-314 | Every item is shown once, agents before jobs, and within each those that need attention, the other active ones, then the rest. |
| Lifecycle.NormalizedIsFixed | sdk/node/src/lifecycle.js:62-72 | A normalized status is a status with the same meaning, so ending a turn cannot throw half way. |
| Lifecycle.EveryRunIsBracketed | sdk/node/src/lifecycle.js:93-216 | On every run a handle's messages are its start, deltas, and at most one finish with nothing after; after the end of the turn every handle has its finish. |
| Lifecycle.IdsAreBracketedIff | sdk/node/src/lifecycle.js:93-216 | Read by kind and id, as they are on the wire, the messages of every run are bracketed exactly when no two streams and no two tools of the turn have one id. |
| Lifecycle.EveryRunSettles | sdk/node/src/lifecycle.js:303-372 | When no request id is asked for while it is pending, the end of a turn leaves every permission answered exactly once and every handle closed. |
| Lifecycle.EndAnswersAllIff | sdk/node/src/lifecycle.js:303-336 | After one more request the end answers every permission if and only if its id was not pending: a second request under a pending id loses the first. |
| Lifecycle.EndAnswers | sdk/node/src/lifecycle.js:348-372 | The end denies exactly the pending promises. |
| Lifecycle.ResolveOk | sdk/node/src/lifecycle.js:320-332 | Only the first answer counts. |
| Handles.Handle.Write | sdk/node/src/lifecycle.js:93-99 | A late token is dropped, not thrown. |
| Handles.Handle.EndStream | sdk/node/src/lifecycle.js:121-128 | A stream ends once. |
| Handles.Handle.FinishTool | sdk/node/src/lifecycle.js:201-216 | A tool ends once, and stays open when the status is unknown. |
| Handles.Turn.Open | sdk/node/src/lifecycle.js:264-290 | A handle is opened, or nothing when the turn has ended. |
| Handles.Turn.Permission | sdk/node/src/lifecycle.js:303-336 | A request is recorded and sent. |
| Handles.Turn.Answer | sdk/node/src/lifecycle.js:320-332 | The first answer resolves the promise. |
| Handles.Turn.End | sdk/node/src/lifecycle.js:348-372 | Handles settle in order, then promises, then the phase; an unknown status changes nothing. |
| Handles.Facade.SettleAll | sdk/node/src/lifecycle.js:404-406 | Every open turn ends with its own settle status, and none stays open. |
| Handles.Facade.NewTurn | sdk/node/src/lifecycle.js:398-402 | A turn is registered unless its settle status is unknown. |
| Painting.LineIsSent | crates/inline/src/style.rs:195-234 | For every line: its characters are sent one after the other, a tab as four spaces, control and direction characters (by code point) left out, every other as it is, each in the style of its span with the fill for background where it has none; then exactly `width - line.width()` spaces of the fill. |
| Painting.OrdinaryLineShows | crates/inline/src/style.rs:195-234 | Text without control, direction and tab characters shows exactly its graphemes, in order, span by span, and then the fill. |
| Painting.RowShowsText | crates/inline/src/term.rs:276-295 | Such a line, if it fits, is seen in its row with each grapheme in the column where those before it end, in its style. |
| Painting.RowShowsFill | crates/inline/src/term.rs:276-295 | Behind the text its fill goes on to the last column but one; the rest of the row is blank. |
| Painting.ClipKeeps | crates/inline/src/term.rs:276-295 | A line too wide keeps the spans in front of the first that leaves no free cell, that one cut to the room left with an ellipsis only if it does not fit; the fill stays. A line that fits is not touched. |
| Painting.FrameShows | crates/inline/src/term.rs:205-215 | The rows drawn for a frame are those of its last `height-1` lines, in order. |
| Saving.FinishSaves | crates/tui/src/persist.rs:54-65 | The finish of a tool saves its pending output, then its pending errors, then itself; that of a message its reasoning, its reply, itself; neither key is pending then, and no other run changes. |
| Saving.FinishKeepsOrder | crates/tui/src/persist.rs:107-118 | The runs that stay keep their order. |
| Saving.PieceIsKept | crates/tui/src/persist.rs:44-53 | A piece saves nothing: it begins a run or goes to the end of its run, whole for a stream and cut to the longest end of whole characters within 64 KB for a tool; no other run changes. |
| Saving.BoundaryMeans | crates/tui/src/persist.rs:93-97 | A place is inside a character exactly when its byte is from 128 to 191. |
| Saving.FlushSaves | crates/tui/src/persist.rs:82-85 | A flush saves every pending run, oldest first, each under the number of its first piece. |
| Saving.RegistrationSaves | crates/tui/src/persist.rs:67-75 | Commands, mention lists and statuses are saved unless the last one saved of their type was the same. |
| Saving.OthersPass | crates/tui/src/persist.rs:66-76 | Logs of background items, mention queries and their answers are never saved; every other event is saved as it is. |
| Keystrokes.TypingInserts | crates/inline/src/editor.rs:136-143 | Typed text goes in at the cursor, carriage returns as newlines; what was before and behind the cursor stays so, and the cursor is behind what was typed. |
| Keystrokes.EnterMeans | crates/inline/src/editor.rs:156-166 | Enter puts in a newline, replaces a backslash before the cursor by one, or hands over the buffer: then that is the newest history entry and the editor is empty. |
| Keystrokes.BackspaceRemoves | crates/inline/src/editor.rs:167-181 | Backspace removes just the grapheme before the cursor, or back to the nearest start of a word. |
| Keystrokes.DeleteRemoves | crates/inline/src/editor.rs:182-189 | Delete removes just the grapheme at the cursor, or on to the nearest end of a word. |
| Keystrokes.BackspaceUndoesTyping | crates/inline/src/editor.rs:136-181 | Backspace after one typed grapheme gives back the buffer and the cursor. |
| Keystrokes.KillToEndRemoves | crates/inline/src/editor.rs:214-223 | A kill takes the rest of the line, or the newline at its end, and keeps it for a yank. |
| Keystrokes.KillToStartRemoves | crates/inline/src/editor.rs:224-233 | The other takes what is before the cursor back to the start of the line, and keeps it. |
| Keystrokes.YankInserts | crates/inline/src/editor.rs:234-241 | Yank puts in what was killed last, at the cursor. |
| Keystrokes.YankUndoesKill | crates/inline/src/editor.rs:214-241 | A kill followed by Yank gives the buffer back. |
| Keystrokes.LeftRightMove | crates/inline/src/editor.rs:190-197 | Left and Right go one grapheme, or one word to the nearest boundary; only the cursor moves. |
| Keystrokes.LeftUndoesRight | crates/inline/src/editor.rs:190-197 | Left undoes Right and Right undoes Left. |
| Keystrokes.LineKeysMove | crates/inline/src/editor.rs:208-213 | The line keys go to the nearest newline on their side or the end of the buffer; only the cursor moves. |
| Keystrokes.VerticalKeysMove | crates/inline/src/editor.rs:386-408 | Up and Down go to the same column of the row above or below the one that owns the cursor; past the first and the last row they walk the history. |
| Keystrokes.HistoryKeysShow | crates/inline/src/editor.rs:313-345 | A history step shows the entry before or after, or the draft, and changes none. |
| Keystrokes.UndoBringsBack | crates/inline/src/editor.rs:242-249 | Undo brings back the newest snapshot. |
| Answers.ConfirmKeys | crates/inline/src/session.rs:1340-1458 | On a confirmation "y", "Y", a leading 1 and Enter on option 0 send yes; "n", "N", any other leading digit of an option and Enter on another option send no; no other text answers; the next prompt follows. |
| Answers.ListKeys | crates/inline/src/session.rs:1340-1458 | On a list Enter sends the value of the option selected, if it is shown, and a leading digit that of its option while typing does not filter; the next prompt follows. |
| Answers.CancelIff | crates/inline/src/session.rs:1410-1458 | Cancelling a list or a confirmation sends that it was dismissed exactly when that is allowed; otherwise nothing is sent and it stays open. |
| Answers.PermissionMovesOn | crates/inline/src/session.rs:1393-1409 | A permission answered gives way to the next prompt; cancelled, it takes every queued permission with it. |
| Answers.StayingPrompts | crates/inline/src/session.rs:1555-1557 | The prompts that stay queued when a turn ends are exactly those that are no permissions, in order. |
| Answers.SettledDesk | crates/inline/src/session.rs:1555-1557 | The end of a turn drops exactly the permissions, open and queued, and shows the next prompt. |
| Answers.ArrowsSelect | crates/inline/src/session.rs:1343-1349 | The arrows select the option before or after, round the list of those shown. |
| Answers.TypingFilters | crates/inline/src/session.rs:1379-1388 | Typing on a list filtered so goes to the end of the filter and selects the first option it leaves; Backspace takes the last character back. |
| Answers.FramesArm | crates/inline/src/session.rs:127-143 | A permission is armed 400 ms after the first frame that shows it without a form. |
| Answers.AskedPromptWaits | crates/inline/src/session.rs:1463-1470 | A prompt asked for while another is open waits at the end of the queue when either is a permission. |
| Effects.SettleMeans | crates/inline/src/session.rs:1501-1558 | The end of a turn drops exactly the rows of plan updates; every other block stays in its place, done: a tool that was running is Stopped, every other status and all names, titles and texts are unchanged, groups are closed; added are the plan exactly if the turn was interrupted with a step not done, then the notice exactly if it was interrupted while something went on. |
| Effects.CloseMeans | crates/inline/src/session.rs:1871-1885 | Ending a run of reads closes the open group, done if nothing in it runs, and changes no other block. |
| Effects.StreamStartedMeans | crates/inline/src/session.rs:403-412 | A stream starts with an empty reply at the end. |
| Effects.ReasoningMeans | crates/inline/src/session.rs:413-446 | Reasoning goes to the end of its block, or begins one at the end or right above its reply while that is empty, or is dropped. |
| Effects.TokenMeans | crates/inline/src/session.rs:447-475 | A token goes to the end of its reply, or begins one; one that is not blank ends a run of reads; the reasoning of its stream is done; no other block changes. |
| Effects.MessageCompletedMeans | crates/inline/src/session.rs:476-494 | A completed message leaves its reply and its reasoning done: a final text that goes on from what was printed leaves its rest behind newlines, another one what was held; no other block changes. |
| Effects.PlanUpdateStarts | crates/inline/src/session.rs:495-553 | A plan update shows as a row under its name, running, and ends no run of reads. |
| Effects.RowStarts | crates/inline/src/session.rs:495-553 | A tool of its own ends a run of reads and shows as a row under its name, running. |
| Effects.GroupedToolStarts | crates/inline/src/session.rs:495-553 | A tool of the open group's label goes behind those in it; any other begins a group; either shows under its name, running. |
| Effects.ToolFinishedMeans | crates/inline/src/session.rs:562-665 | A tool that ends gets its status where it is shown; its row is done, its group if it is closed and nothing in it runs; a plan update that did not fail, of a plan reported too, goes; an unknown tool changes nothing. |
| Effects.BlockShownMeans | crates/inline/src/session.rs:1851-1870 | A block shown goes to the end, done, and ends a run of reads unless it is reply text, reasoning or a group. |
| Effects.ClearedMeans | crates/inline/src/session.rs:1105-1110 | Clearing drops the plan and exactly the blocks that are done. |
| Effects.PhaseMeans | crates/inline/src/session.rs:958-969 | A busy phase changes no block; a phase that is not busy ends the turn once; a cancelled turn ends as interrupted. |
| Effects.HistoryTakenMeans | crates/inline/src/session.rs:1564-1587 | Printing takes the blocks up to the first that is not done; before, a leading reply not done is split at its cut, if it has one. |
| Effects.PrintedAre | crates/inline/src/session.rs:1564-1587 | Of the blocks taken exactly those are printed, in order, that are no blank reply and, unless reasoning is shown, no reasoning. |
| Thoughts.EveryThoughtIsTold | crates/inline/src/session.rs:413-446 | On every run each block of reasoning, held or printed, is exactly the tokens it was sent, in order. |
| Browsing.ReportMeans | crates/inline/src/activity.rs:165-233 | A report changes the one item it names: given fields replace, absent ones stay, an empty summary is none, progress stays within 0 and 1, output stays, a stop asked for is forgotten once another status is given; an unknown item comes last, as a running job under its id. |
| Browsing.ChangeMeans | crates/inline/src/activity.rs:234-243 | Told are, by the statuses before and after: a new active item if new ones are announced, an active item done, failed or stopped, and one that needs attention and did not; nothing else. |
| Browsing.SnapshotMeans | crates/inline/src/activity.rs:276-288 | A snapshot drops exactly the items no report of it names, and then is one report after the other. |
| Browsing.RemovedIs | crates/inline/src/activity.rs:269-271 | Removing drops exactly the items of the id, in order. |
| Browsing.LogMeans | crates/inline/src/activity.rs:246-267 | Output goes to the item named alone; an unknown one is ignored. |
| Browsing.ListOrder | crates/inline/src/activity.rs:302-314 | The list is the stable sort: agents before jobs, then those that need attention, then the other active ones; items that tie keep their order. |
| Browsing.ListKeys | crates/inline/src/activity.rs:402-440 | What each key does on the list. |
| Browsing.DetailKeys | crates/inline/src/activity.rs:441-500 | What each key does in the details: back, close, scroll by a line, a page or all the way but not past the first line, or ask whether to stop. |
| Browsing.ConfirmKeys | crates/inline/src/activity.rs:501-519 | "y", "Y" and Enter stop the item; "n", "N", Escape and Ctrl-C do not; either goes back to what was under the question; other keys do nothing. |
| Browsing.PressMeans | crates/inline/src/session.rs:1150-1180 | What a key leads to is done: the host is told a view or a stop, the item to stop is marked, the browser closes. |
| Browsing.FixedMeans | crates/inline/src/session.rs:2039-2051 | Details or a question about an item that is gone give way to the list, which the host is told; else nothing changes. |
| Browsing.OpenedMeans | crates/inline/src/session.rs:2027-2035 | The browser opens with the list, which the host is told, unless it is open. |
| Delivery.StatusMeans | sdk/node/src/lifecycle.js:43-72 | A missing status, "ok" and "done" mean success, "error" and "failed" an error, "cancelled" and "canceled" a stop, "rejected" a refusal, in any case of the letters; every other throws. |
| Delivery.EveryRunDelivers | sdk/node/src/lifecycle.js:84-216 | On every run the messages of a handle are its start, exactly the texts written to it while it was open, in order, and once it is closed one finish. |
| Delivery.CallMeans | sdk/node/src/lifecycle.js:84-216 | What a call sends for a handle: the text written while it is open; the finish with the final text, or the status and the exit code given, else 1 for an error and 0 otherwise; nothing for a closed one. |
| Delivery.EndSends | sdk/node/src/lifecycle.js:348-372 | The end of a turn sends the finish of every open handle, oldest first, with the status given or the turn's own, and then the phase. |
| Delivery.OpenMeans | sdk/node/src/lifecycle.js:264-290 | Opening sends the start of a new handle under its id; nothing opens once the turn has ended. |
| Trails.FinishMeans | crates/inline/src/compact.rs:155-185 | The bead of a tool that fails becomes an error, that of one that succeeds keeps its kind; either keeps its time and place; no other bead changes. |
| Trails.StartMeans | crates/inline/src/compact.rs:144-154 | A tool that starts has the newest bead, of its kind and not failed; a trail of 32 drops its oldest. |
| Trails.WindowIs | crates/inline/src/compact.rs:132-143 | The beads kept are the last 32, and the index says where in them the running tools are. |
| Trails.AgentsMean | crates/inline/src/compact.rs:186-205 | An agent that starts comes last, open; a report is of the first open agent of its number and changes no other. |
| Trails.AgentsAreStarts | crates/inline/src/compact.rs:186-195 | On every run the agents are those that began, in order, each with its number, title and time. |
| Cuts.PlaceIs | crates/inline/src/session.rs:2538-2555 | A reply may be split exactly behind a blank line with an even number of lines before it that start, after white space, with three backticks or three tildes. |
| Cuts.CutMeans | crates/inline/src/session.rs:1907-1948 | A reply is cut exactly if there is such a place with something to print before it; then at the last one, white space before it and newlines behind it dropped. |
| Chars.WhitespaceIs | crates/inline/src/session.rs:2546-2551 | White space, which the source leaves to Rust's `trim` and `trim_start`, is the 25 characters of the Unicode property. |
| Codes.DecimalMeans | crates/inline/src/style.rs:34-65 | Numbers are written in decimal digits, without leading zeros. |
| Codes.ColorMeans | crates/inline/src/style.rs:34-65 | What is sent for each color: 30 to 37 and 90 to 97, or 40 to 47 and 100 to 107 for a background, or 38 or 48 with 5 and a number, or with 2 and three. |
| Codes.StyleMeans | crates/inline/src/style.rs:121-132 | What is sent for a style: a reset, its attributes by number, and its colors. |
| Codes.ParameterMeans | crates/inline/src/ansi.rs:102-107 | A parameter is read as the number its digits spell, behind a plus sign or not; what is no number up to 65535 reads as 0. |
| Codes.ParametersMean | crates/inline/src/ansi.rs:102-107 | Parameters are what stands between semicolons and colons; an empty one reads as 0. |
| Codes.NumberMeans | crates/inline/src/ansi.rs:108-133 | Which attribute or color each number switches on or off; every other number does nothing. |
| Codes.ExtendedMeans | crates/inline/src/ansi.rs:134-155 | 38 and 48 take a color number behind 5 or three bytes behind 2; what is missing reads as 0 and only the low byte counts; else they choose the default color. |
| Hunks.ContextMeans | crates/inline/src/diff.rs:42-49 | Of a script exactly the lines no further than the context from a change are shown, in order. |
| Hunks.RemovalsFirst | crates/inline/src/diff.rs:27-41 | Among changes that follow each other the removals come first. |
| Hunks.PastLimitMeans | crates/inline/src/diff.rs:11-17 | Of texts past the table limit every new line is shown as added, with its number. |
| Wakeup.WakeupMeans | crates/inline/src/session.rs:1761-1799 | The wakeup is the earliest of: the next step of 80 ms (a second, out of focus) while tasks run or work goes on without a question; the next second while the browser ticks; the end of the status while nothing goes on, of the notice, and of the exit hint. |
| Wakeup.FrameMeans | crates/inline/src/session.rs:1807-1815 | The frame drawn counts whole steps of 80 ms since the work began, and is the first out of focus. |

## Left out

- `InlineTerminal::resize`: it estimates how a terminal reflows its rows, and that is not in the code.
- Unicode segmentation and width tables: a grapheme is an atom with a given width; offsets in the editor count graphemes, not bytes.
- Bytes sent to the terminal: rows are compared as tokens (styles and graphemes) where the source compares encoded strings; the synchronized-update marks are kept, the terminal ignores them.
- Machine integers: positions, ids, times and line numbers are unbounded; the source's `u32` line numbers, `u64` ids and `i64` times do not wrap here.
- `str::lines`: the diff takes lists of lines; how a text is cut into them is not part of this model.
- `parse_unified` in `diff.rs`: reading a host's own diff would only add a parser.
- Editing.Editor.HandleKey: does not model pastes, because text is plain graphemes here and a chip is text the source searches for; completion of mentions and commands is left out too.
- Editing.Editor.EditBuffer: does not model deleting a whole paste chip with one Backspace, for the same reason.
- Editing.Editor.SubmitBuffer: hands over the buffer as shown; the source also puts pasted text in place of its chips.
- Colors of input text (`input_spans`), pickers, prompt boxes, footers and the rest of `chrome.rs`: presentation.
- Forms and wizards: a form is only whether it is open over a prompt; a wizard's steps are prompts asked for.
- Fuzzy ranking of a list's options: which options a filter leaves, and in which order, is given with each key.
- Markdown and highlighting, and the rendering of blocks to lines: `take_history` returns blocks.
- Whether a tool is a plan update, a row of its own or part of a run is given with its start; the classifier of shell commands has no specification.
- Summaries, previews, diffs, elapsed times and streamed output of a tool block in the session: they do not decide which blocks are held.
- `finish_transcript`: it marks running blocks finished and is kept out of the invariants of a live run.
- `SessionStarted`, echoes of submitted prompts, toasts, segments and other events that only show a finished block are the one event that shows a block.
- Plan steps and code previews of the compact state, and its elapsed times: they only show.
- The badge over background items, and progress as a 32-bit float: it is a real here.
- The coalescer's JSON bodies: a body is a text and a key; the store is "load returns events ordered by `seq`".
- The signals, key reader and tty modes of the app: only that a flush may come at any time is used.
- Sending in the SDK is a total append to the turn's own trace; a renderer that exits while a message is sent is not modelled.
- Status names in the SDK: lower case covers the characters whose lower case is an ASCII letter.
