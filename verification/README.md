# A verified model of Easy Share's transfer core

Easy Share sends files between devices on a local network. This project models the parts of it that
carry its guarantees, in Dafny, and proves those guarantees over all inputs and all runs:

* **The resumable transfer.** `Receiver`, `Sender`, `Network` and `Batch` follow the handlers, the chunk
  loop and the batch driver as methods over a mutable server, disk and application. Errors, lost
  requests and the doings of other programs and of the receiver's user are nondeterministic choices.
  `Machine` cuts the same handlers at every point where another can run: sessions, requests in flight,
  open handles, file names and file bodies are one state, and a run is any sequence of events.
  `MachinePrefix`, `MachineCursor`, `MachineCancel`, `MachineRevival`, `MachineHomes` and `MachineSaved`
  prove what holds in all runs, and `MachineDelivery` that an undisturbed transfer saves its file.
  `ReceiverLaws` says what the receiver's checks and records mean without naming them; `BatchClash` shows
  what a batch can lose whose targets meet its parts.
* **Committing under a fresh name.** `Names` models sanitizing, numbering and part names, `Storage` the
  disk, the search for a free name and the commit with its retry loop, under interference.
  `NameLaws` reads off the texts what sanitizing, numbering and relative paths do.
* **The pairing register.** `Pairing` is the register with its counting window, PIN rotation, waiting
  runs and stored keys; `PairingRuns` proves what holds over every run in which time does not go back.
  `PairingProofs` ties every stored key to the tag that proved it, and back.
* **The peer tracker.** `Tracker` is the map that merges one device seen on several addresses;
  `TrackerRuns` relates it to the history of sightings and to the events it emits. `TrackerLaws` gives
  addresses, ranks, ages and events in plain terms.
* **The encodings under encryption and authentication.** `Crypto`, `Pake`, `Hex` and `Handshake`.
  ChaCha20-Poly1305 (section 2.8 of RFC 8439), HKDF (section 2 of RFC 5869) and keyed BLAKE3 are terms
  that record what went in; Diffie-Hellman is any function with the commuting law, and the BLAKE3 of
  files and short texts is any function.

Each class method is proved against a specification function or an outcome predicate; the lemmas about
those give the main results. `dafny verify dfyconfig.toml` checks everything.

## Where the code and its words differ

* The comment on `PAIR_ATTEMPTS_PER_MINUTE` speaks of a rolling minute; the code counts per window. The
  model follows the code: N starts per window and 2N in any 60 seconds, which is reached.
* The comment on `cancel_session` says that further chunks and finishes are refused. A finish request past
  its session check does not look again: its last step makes the session a completed one when all files are
  then noted as done, and chunks are accepted again. A cancel holds when no finish request is on its way, or
  some file that is not done has none; otherwise, if those on their way get to their ends, it is undone.
* While others keep off the session's parts and no finish makes it live again, a cancel leaves a part behind
  exactly when a chunk handler or finish request fails at a moment when the cancel has been at its part, the
  part is there, and no other request of the session is in flight on it.
* A chunk that opens its part after the part was committed or deleted can leave a gap; the prefix is
  kept exactly when the offset is not past the end, or the gap is zeros in the source.
* The check and the commit of a finish request are two steps; what is committed is whatever the part
  is then. Saved is exactly the source as long as the part's name is not removed in between.
* A file whose target meets the part path of a later file of its batch can be confirmed there and then be
  written over. The results about batches hold for targets that meet no part of the batch under any
  number, which can be read off the names.
* Device names in the tracker stay unique exactly as long as no sighting takes over an address listed
  for another device while its own device is listed elsewhere. The events replay to the tracker's list
  exactly as long as no two unnamed devices are listed at once.
* A cancel breaks off the wait for the speed limit, so the last chunk before it may have been too fast.
* A client set up with chunk size 0 ends its loop at once and reports success; the results about whole
  files say so.

## Model

| member | source | states |
|---|---|---|
| `MachinePrefix.PartOnlyGrows` | src-tauri/src/server/routes.rs:288-414 | Over every run of any number of attempts, sessions old and new, half-sent and late chunk requests in which nobody cancels a live session of the part or asks to commit it, and no finish makes a cancelled session of it live again, the part file stays a prefix of its source and never shrinks; cancels of the part that are over, and late requests of their sessions, do not matter. |
| `MachinePrefix.StepKeepsSteady` | src-tauri/src/server/routes.rs:288-414 | Every single step of such a run (queueing, opening, each write, closing, the last session check, answers, failures, work on other parts) keeps the prefix and the position of every cursor and handler. |
| `MachinePrefix.AtRestIsSteady` | src-tauri/src/server/routes.rs:204-210 | Runs may start from any prefix on disk that nobody works on and no cancel has yet to delete. |
| `MachinePrefix.CancelledPartStartsOver` | src-tauri/src/server/state.rs:600-622 | After a cancel that is over, the part is steady again for whatever source is sent next under its name, by a live session that has it now or is made later, however many late requests and attempts of the cancelled sessions there still are. |
| `MachinePrefix.FinishedAttemptMeansWhole` | src-tauri/src/client/sender.rs:964-1052 | An attempt of a live session whose offset has reached the end leaves exactly the source in the part, and a finish request finds it so. |
| `MachineCursor.ReadPositionIsTheOffset` | src-tauri/src/client/sender.rs:946-1028 | In every run, an attempt that waits for no answer has read its file exactly up to the offset it will put on its next chunk, although the file moves by the bytes read and the offset by the bytes the receiver says it wrote. |
| `MachineCursor.StepKeepsInStep` | src-tauri/src/client/sender.rs:1001-1028 | Every step keeps the two positions in step: equal between requests, one chunk apart while one is on its way. |
| `MachineCursor.ResumeSkipsWhatIsThere` | src-tauri/src/client/sender.rs:1106-1145 | In every run, an attempt that asked for the length of a part never labels a chunk with an offset below what the part held when it asked, whatever happens to the part and the session afterwards. |
| `MachineCursor.AttemptGoesOn` | src-tauri/src/client/sender.rs:964-1052 | Through any events, an attempt that is not given up stays for its file and session, and its offset never goes back. |
| `MachinePrefix.LateOpenKeepsPrefixExactly` | src-tauri/src/server/routes.rs:301-325 | A handler that opens the part late and writes keeps it a prefix if and only if its offset is not past the end of what is there, or the source has only zeros in the gap. |
| `MachinePrefix.WritesAddUp` | src-tauri/src/server/routes.rs:376-404 | However the bytes of one handler are cut into writes, they end up in its file body at the request's offset, and nothing else changes. |
| `MachinePrefix.AloneIsOneWrite` | src-tauri/src/server/routes.rs:241-464 | A chunk request that nobody interrupts has, step by step, the effect of the handler run in one piece: it is answered, the part is as after one write of the chunk at its offset, and all other names and bodies are as before. |
| `MachineHomes.StepKeepsHomes` | src-tauri/src/server/routes.rs:288-309 | In every step, part names and open handles lead to file bodies created under that part's own name. |
| `MachineCancel.NoPartIsLeft` | src-tauri/src/server/routes.rs:412-428 | In every interleaving of a cancel with any number of chunk handlers and finish requests, unless a failure strands a part, once all are done and the session is still cancelled no part file of it is left, even when deletions were refused because others held the file open. |
| `MachineCancel.CleanExactly` | src-tauri/src/server/routes.rs:412-428 | The exact condition: when others keep off the session's parts and no finish makes it live again, a cancel with all its requests done has left no part if and only if no chunk handler or finish request failed at a moment when the cancel had been at its part, the part was there, and no other request of the session was in flight on it. |
| `MachineCancel.RestIsCleanExactly` | src-tauri/src/server/routes.rs:412-428 | The same for every run from any state at rest, for any session nobody has cancelled yet. |
| `MachineCancel.StrandedStays` | src-tauri/src/server/state.rs:600-622 | A part stranded by such a failure is never deleted by the session again. |
| `MachineCancel.StepKeepsSound` | src-tauri/src/server/state.rs:600-622 | While the session is cancelled, each part still on disk is still to be deleted by a cancel of it or has a request of the session in flight on it; every step keeps this. |
| `MachineCancel.StepKeepsSessions` | src-tauri/src/server/routes.rs:605-617 | A step makes a cancelled session live again exactly when it is the last step of a finish after which all files of the session are noted as done; no step takes a session away. |
| `MachineCancel.HolderIsBusy` | src-tauri/src/server/routes.rs:412-424 | Whoever makes a deletion fail by holding the part open is a handler of the same session, still in flight on that part. |
| `MachineCancel.FailureLeavesThePart` | src-tauri/src/server/routes.rs:327-395 | Such failures can happen in every session: whenever one handler is past its check on a part and no other request of the session is in flight on it, there is a run in which the cancel deletes the part, the handler makes it anew and fails, and the part is stranded. |
| `MachineRevival.NothingIsAcceptedAfterCancel` | src-tauri/src/server/routes.rs:246-260 | Once a session is marked cancelled, and no finish request of it is on its way or some file that is not done has none, it stays cancelled in every run and no chunk of it is answered with success any more: those answered later had been answered before. |
| `MachineRevival.StepKeepsFinal` | src-tauri/src/server/routes.rs:466-618 | Every step keeps this: no finish request of a cancelled session starts, and no file without one gets done. |
| `MachineRevival.FinalCancelLeavesNothing` | src-tauri/src/server/state.rs:600-622 | Under that condition and unless a failure strands a part, once all is over no part of the session is left. |
| `MachineRevival.Revive` | src-tauri/src/server/routes.rs:605-617 | The condition is needed: in every state of a cancelled session in which every file that is not done has a finish request on its way, at least one is on its way, and they can get to their ends, there is a run of theirs after which the session is no longer cancelled. |
| `MachineRevival.CancelCanBeUndone` | src-tauri/src/server/routes.rs:605-617 | After such a run a chunk request of the session that was still queued is answered with success, and its part is there again. |
| `MachineRevival.StaysCancelledExactly` | src-tauri/src/server/routes.rs:605-617 | The last step of a finish leaves its cancelled session cancelled if and only if another file of the session has fewer bytes noted than its source has. |
| `MachineDelivery.TransferDelivers` | src-tauri/src/client/sender.rs:1106-1145 | From every state in which a live session has a file whose part is a beginning of its source, however long, there is a run of one sender, asking, sending chunks of any wished size and finishing, that ends with the source saved under any free name and the part gone. |
| `MachineDelivery.NewSessionDelivers` | src-tauri/src/server/routes.rs:466-618 | The same with a session made for it first, whoever else has sessions. |
| `MachineDelivery.AllChunks` | src-tauri/src/client/sender.rs:964-1052 | Chunk by chunk, each answered before the next is read, the sender brings the part from any length to the whole source. |
| `MachineSaved.SavedFilesNeverChange` | src-tauri/src/server/routes.rs:566-586 | Through every run of cancels, repeated finishes and handlers that still hold the old part open, a saved file keeps its name and stays its source byte for byte. |
| `MachineSaved.CheckedPartIsSaved` | src-tauri/src/server/routes.rs:524-586 | A part found whole stays whole until its name is deleted, and every finish that links it before then saves exactly the source. |
| `MachineSaved.FinishSavesForGood` | src-tauri/src/server/routes.rs:549-586 | A finish that links the file body it checked saves the source, and no later run changes it. |
| `MachineSaved.RepeatedFinishMaySaveNothing` | src-tauri/src/server/routes.rs:549-586 | Without that condition the guarantee fails: between the check and the link of one finish, another finish can remove the part and a late chunk make it anew, and the first then saves an empty file. |
| `MachineSaved.RestCanSaveNothing` | src-tauri/src/server/routes.rs:549-586 | From every state at rest in which a session waits for a file that is not empty there is a run of its own requests that ends so. |
| `Octets.WriteKeepsPrefixExactly` | src-tauri/src/server/routes.rs:311-325 | A write of a piece of the source into a prefix of it gives a prefix if and only if it leaves no gap, or a gap that is zeros in the source. |
| `Octets.WriteInPieces` | src-tauri/src/server/routes.rs:396-404 | Writing piece by piece is writing the whole at once. |
| `Octets.WriteAtExactly` | src-tauri/src/server/routes.rs:311-325 | After a write each byte is the piece's inside it, zero in a gap before it, and what it was elsewhere. |
| `Octets.BigEndianRoundTrip` | src-tauri/src/crypto.rs:94-103 | Decoding undoes big-endian encoding for every value that fits the width. |
| `Octets.FirstByteCountsMost` | src-tauri/src/crypto.rs:94-103 | The first byte is the most significant one. |
| `Crypto.DeriveChunkNonce` | src-tauri/src/crypto.rs:94-103 | Fills the 12 bytes with the big-endian offset and length; fails exactly for lengths of 2^32 or more. |
| `Crypto.NonceInjective` | src-tauri/src/crypto.rs:89-103 | Equal nonces mean equal offset and equal length. |
| `Crypto.FileSubkeyInjective` | src-tauri/src/crypto.rs:82-87 | Different files or session keys have different subkeys. |
| `Crypto.DecryptExactly` | src-tauri/src/crypto.rs:122-138 | Decryption gives a text if and only if the payload is the sealed form of that text for this key, file and offset. |
| `Crypto.CiphertextIsBound` | src-tauri/src/crypto.rs:106-138 | A ciphertext opens under one session key, file, offset and text only. |
| `Crypto.NonceReuseIsHarmless` | src-tauri/src/crypto.rs:81-119 | Two sealings of unchanging sources that share file key and nonce are the same sealing. |
| `Sender.ManySendsHaveNoTwoTexts` | src-tauri/src/client/sender.rs:1001-1012 | Over any number of sends, resumes and byte-limited sends of a session's files, nothing is sealed twice under one file key and nonce but the same text. |
| `Sender.SendIsFromSession` | src-tauri/src/client/sender.rs:1001-1012 | What one send seals is from the session's sources, by file id. |
| `Hex.RoundTrip` | src-tauri/src/pairing/pake.rs:35-41 | The bytes of a key come back from their hexadecimal text. |
| `Hex.DecodeExactly` | src-tauri/src/crypto.rs:45-49 | A text is decoded to given bytes if and only if it is their hexadecimal text in lower or upper case. |
| `Pake.Tag` | src-tauri/src/pairing/pake.rs:69-78 | The loop feeds the keyed hash the label and then each part behind its 8-byte length. |
| `Pake.PartsRoundTrip` | src-tauri/src/pairing/pake.rs:69-78 | The whole list of parts can be read back from what the hash was fed. |
| `Pake.LabelsArePrefixFree` | src-tauri/src/pairing/pake.rs:20-24 | No label is a prefix of another. |
| `Pake.PurposesNeverMeet` | src-tauri/src/pairing/pake.rs:69-78 | Tags for different purposes never have the same input, whatever the parts. |
| `Pake.TagInputInjective` | src-tauri/src/pairing/pake.rs:69-78 | The input of a tag determines its label and every part. |
| `Pake.AuthIsExact` | src-tauri/src/pairing/pake.rs:164-227 | A tag is accepted if and only if it was made with the same key, purpose and parts. |
| `Handshake.HandleRequest` | src-tauri/src/server/state.rs:528-590 | A request is refused without a trace, or becomes one new session, under a token nobody has, with the answered offsets and key; nothing else changes. `CheckExactly`, `AnswerExactly` and `KeysAgreeExactly` say what the refusal, the answer and the key are. |
| `Handshake.CheckExactly` | src-tauri/src/server/state.rs:490-526 | A request is taken in the clear if and only if it has no key, states another mode or encryption is off; otherwise it is refused for a bad key, an unknown pairing or a tag that is not the one for its id and key, and taken with just the pairing it proves in the remaining case. |
| `Handshake.AnswerExactly` | src-tauri/src/server/state.rs:543-588 | The answer states the mode and carries the receiver's key if and only if the session has a key; says whether a pairing was proven, which is when one was claimed; and exactly then carries the tag for this request, token and key under the pairing's key. |
| `Handshake.KeysAgreeExactly` | src-tauri/src/crypto.rs:60-78 | The key a sender accepts is the key the receiver stored if and only if the Diffie-Hellman outputs, the pairing keys (empty if none) and the tokens are equal. |
| `Handshake.SessionKeysDifferExactly` | src-tauri/src/crypto.rs:60-78 | Two sessions of a receiver have the same key if and only if all three are the same. |
| `Handshake.ChunksStayInTheirSession` | src-tauri/src/crypto.rs:60-138 | A chunk sealed for one session opens in no session with another token, pairing key or Diffie-Hellman output, under whatever file and offset. |
| `Handshake.FindOffsets` | src-tauri/src/server/state.rs:530-540 | The offset answered for each file is the length of its part file. |
| `Handshake.NegotiateExactly` | src-tauri/src/client/sender.rs:349-391 | An answer is accepted if and only if it states the encryption mode, carries a valid key and, from a paired peer, the tag for this request, token and key. |
| `Handshake.BothHoldTheSameKey` | src-tauri/src/server/state.rs:548-566 | An encrypted session made for a sender's own request is always accepted by that sender when the answer arrives unchanged, and both hold the same key; `KeysAgreeExactly` says what that key depends on. |
| `Handshake.PairingIsProvenExactly` | src-tauri/src/server/state.rs:506-523 | The receiver takes a claimed pairing if and only if both devices hold the same key under that id. |
| `Handshake.SubstitutedAnswerIsRefused` | src-tauri/src/client/sender.rs:366-382 | An answer signed for another request id, token or public key, or with another key, is refused. |
| `Handshake.SubstitutedRequestIsRefused` | src-tauri/src/server/state.rs:506-523 | A request signed for another request id or public key, or with another key, is refused. |
| `Handshake.ClearAnswerIsRefused` | src-tauri/src/client/sender.rs:349-391 | A sender that asked for encryption refuses an answer in the clear. |
| `Names.SanitizeFilename` | src-tauri/src/storage/file_manager.rs:56-98 | The sanitizer, with its trimming loop, returns a safe name for every input. |
| `Names.SanitizeIsSafe` | src-tauri/src/storage/file_manager.rs:56-98 | A sanitized name is visible, has no separator, special or control character, no trailing dot or space, and is no device name. |
| `Names.SanitizeFixesExactlySafeNames` | src-tauri/src/storage/file_manager.rs:56-98 | Sanitizing leaves a name unchanged if and only if it is safe already, so it is idempotent. |
| `NameLaws.RawNameExactly` | src-tauri/src/storage/file_manager.rs:56-64 | The name sanitized is the last segment between slashes and backslashes that is not empty, "." or ".."; the fallback if there is none. |
| `NameLaws.SanitizeExactly` | src-tauri/src/storage/file_manager.rs:66-98 | It is that segment with underscores in the place of forbidden characters and without its trailing dots and spaces; replaced when nothing visible is left, and with an underscore in front when it is a device name; nothing else changes. |
| `NameLaws.ReservedExactly` | src-tauri/src/storage/file_manager.rs:86-96 | A name is a device name if and only if what lies before its first dot is CON, PRN, AUX, NUL or COM or LPT with a digit from 1 to 9, in any case of letters. |
| `NameLaws.SafeHasNoSpecials` | src-tauri/src/storage/file_manager.rs:66-76 | A safe name has none of the special, control, direction and zero-width characters. |
| `Names.SanitizeRelativePath` | src-tauri/src/storage/file_manager.rs:140-166 | The loop over the segments returns what the specification does, and every component is safe. |
| `NameLaws.SanitizeRelativeExactly` | src-tauri/src/storage/file_manager.rs:140-166 | For every text there are strictly increasing positions of segments whose trimmed and sanitized texts are the path, and every segment left out is blank, ".", "..", a drive, or has nothing visible; without positions there is no path. |
| `Text.TrimExactly` | src-tauri/src/storage/file_manager.rs:146-149 | Trimming takes away white space at both ends, all of it and nothing else. |
| `NameLaws.RelativePathRoundTrip` | src-tauri/src/storage/file_manager.rs:140-166 | A path of safe, trimmed components, none of them the fallback, comes back unchanged from its text. |
| `NameLaws.TargetExactly` | src-tauri/src/storage/file_manager.rs:170-189 | A file sent under such a text is to be saved in just those folders under just that name. |
| `NameLaws.TargetWithoutFolder` | src-tauri/src/storage/file_manager.rs:170-189 | A relative path of which nothing is kept counts as none: the file is to be saved under its own sanitized name. |
| `Names.DestinationsStayBelow` | src-tauri/src/storage/file_manager.rs:170-221 | Every destination, numbered or not, lies strictly below the download folder and has safe components only. |
| `Names.CandidateInjective` | src-tauri/src/storage/file_manager.rs:200-220 | Different numbers give different candidate names. |
| `NameLaws.NumberGoesBeforeExtension` | src-tauri/src/storage/file_manager.rs:200-220 | The number goes in parentheses between the name and its extension. |
| `NameLaws.NumberGoesToTheEnd` | src-tauri/src/storage/file_manager.rs:200-220 | Without an extension it goes to the end. |
| `Names.CandidateIsSafe` | src-tauri/src/storage/file_manager.rs:207-220 | Numbering keeps a name safe. |
| `Names.DestPathInjective` | src-tauri/src/storage/file_manager.rs:207-220 | No two numbers are tried at the same path. |
| `Names.PartPathInjective` | src-tauri/src/storage/file_manager.rs:133-136 | With keys of one length, a part path belongs to one sanitized name and one key. |
| `NameLaws.PartNameExactly` | src-tauri/src/storage/file_manager.rs:133-136 | A part is named by its sanitized name, the key and .part. |
| `Names.PartNameIsSafeExactly` | src-tauri/src/storage/file_manager.rs:115-136 | The name of a part file is one safe component if and only if its key has no character that a file name may not have. |
| `Names.DestinationIsNotAPart` | src-tauri/src/storage/file_manager.rs:133-189 | Seen from the name alone: a target whose first component does not end in .part never meets a part file, and no folder made for it is one. |
| `Names.MeetsPartExactly` | src-tauri/src/storage/file_manager.rs:133-221 | A target is tried at a given part path, under some number, if and only if it has no folder and the part's name is its own or its own with a number, read off the text. |
| `Names.NumberInExactly` | src-tauri/src/storage/file_manager.rs:200-220 | A text is the candidate of a number if and only if that number can be read off it. |
| `Names.PartNameCanBeADestination` | src-tauri/src/storage/file_manager.rs:133-221 | The exception is real: a file sent under the name of another file's part has exactly that part's path as its first destination. |
| `Storage.Disk.GetUniqueDestPath` | src-tauri/src/storage/file_manager.rs:193-221 | With others creating files between any two looks, the search ends however many they create, and finds the plain name if it is free, otherwise the least number whose name is free; all smaller ones are taken. |
| `Storage.Disk.ResolveDestinationPath` | src-tauri/src/storage/file_manager.rs:170-189 | The destination is the first free name of the resolved target at the moment of the last look; `NameLaws.TargetExactly` says which target that is. |
| `Storage.TakenNamesAreBounded` | src-tauri/src/storage/file_manager.rs:207-220 | A finite tree cannot hold more of the tried names than it has entries, which is why the search ends. |
| `Storage.FirstFreeIsUnique` | src-tauri/src/storage/file_manager.rs:193-221 | There is one first free name. |
| `Storage.Disk.CommitPartFile` | src-tauri/src/storage/file_manager.rs:226-263 | Links or copies the part without ever replacing a file; on AlreadyExists everything is still there, the part included, with others creating files between any two steps and every call free to fail. |
| `Storage.Disk.LinkOrCopy` | src-tauri/src/storage/file_manager.rs:236-262 | The link and its copy fallback have the same outcomes. |
| `Storage.Disk.CopyPart` | src-tauri/src/storage/file_manager.rs:248-262 | The fallback ends committed, or with nothing committed, or, if even its clean-up fails, with a first part of the copy at the destination. |
| `Storage.Disk.PickAndCommit` | src-tauri/src/server/routes.rs:566-586 | The retry loop ends within six tries; on success exactly one new file holds the part's bytes, on any error no existing file has changed. |
| `Storage.CommitAddsOneFile` | src-tauri/src/server/routes.rs:566-586 | After a commit the only file that neither was there nor was made by others is the destination, it holds the part's bytes, and all other files are as they were. |
| `Receiver.Server.HandleStatus` | src-tauri/src/server/routes.rs:177-225 | Answers with the length of the part and whether it is empty, partial or at least whole; refuses unknown and cancelled sessions and unknown files. |
| `ReceiverLaws.LookupExactly` | src-tauri/src/server/routes.rs:246-268 | A request gets past the first checks if and only if its session is there, not cancelled, and has a file under that id; each refusal has its own one of these reasons. |
| `ReceiverLaws.FoundIsFirst` | src-tauri/src/server/routes.rs:262-268 | Of several files with one id the first counts. |
| `Receiver.Server.HandleChunk` | src-tauri/src/server/routes.rs:241-464 | The outcome of a chunk request in every case: which error, which bytes reached the part, what the session remembers, and that a chunk whose session was cancelled while it was written is refused and its part deleted. |
| `Receiver.Server.CheckAgain` | src-tauri/src/server/routes.rs:408-428 | The second session check deletes the part and refuses the chunk exactly when the session has been cancelled since the first. |
| `Receiver.Server.ReceivePlain` | src-tauri/src/server/routes.rs:376-404 | The frame loop writes exactly the frames that fit, stops at the first that does not, and leaves a first piece of the body on an error. |
| `Receiver.Server.CollectPayload` | src-tauri/src/server/routes.rs:327-350 | The collecting loop lets through exactly the frames that fit into the limit. |
| `Receiver.TakeInExactly` | src-tauri/src/server/routes.rs:331-350 | A body is let through in full if and only if it is whole and fits. |
| `ReceiverLaws.StopExactly` | src-tauri/src/server/routes.rs:331-400 | Reading stops at the first frame that is broken or does not fit behind those before it, with the error for just that reason, or at the end. |
| `Receiver.PlainVerdict` | src-tauri/src/server/routes.rs:376-400 | A plain chunk is accepted if and only if its body is whole and ends within the declared size. |
| `Receiver.SealedVerdict` | src-tauri/src/server/routes.rs:327-374 | An encrypted chunk is accepted if and only if its body is the sealed form, for this file and offset, of a text within the declared size and the chunk limit. |
| `ReceiverLaws.ReachedExactly` | src-tauri/src/server/routes.rs:429-432 | An answered chunk is noted with its end, and nothing else of the session changes. |
| `Receiver.Server.HandleFinish` | src-tauri/src/server/routes.rs:466-633 | The outcome of a finish request in every case: refused for size or hash, or the outcome of the commit with the session updated; `ReceiverLaws` says what the checks and the update are. |
| `ReceiverLaws.RefusalsExactly` | src-tauri/src/server/routes.rs:524-560 | But for disk errors, a finish is refused for the hash if and only if the part has the stated size and its hash text differs from the stated one in length or at some position in more than case, and for the size if and only if the sizes differ; a refusal changes nothing. |
| `ReceiverLaws.FinishedIsTheSource` | src-tauri/src/storage/file_manager.rs:291-294 | If the sender states the hash of its source and no other content of that size has it up to case, an answered finish has committed exactly the source, whatever the part was before, and the session has its path. |
| `ReceiverLaws.NoPartExactly` | src-tauri/src/server/routes.rs:500-522 | Without a part only an empty file can be finished, and that one unless its stated hash is not that of the empty text. |
| `ReceiverLaws.AfterFinishExactly` | src-tauri/src/server/routes.rs:605-617 | A finished file is noted with its size and path, and the session is completed if and only if every file has at least its size noted. |
| `ReceiverLaws.KeyOfStatedHash` | src-tauri/src/storage/file_manager.rs:119-127 | With a stated hash the key in the part's name is the beginning of its trimmed text, 16 characters at most, in lower case. |
| `ReceiverLaws.KeyOfNameAndSize` | src-tauri/src/storage/file_manager.rs:128-131 | Without one it is the first 16 characters of the hash of name and size. |
| `Receiver.Server.CommitChecked` | src-tauri/src/server/routes.rs:562-618 | A commit of a checked part records its path and the file as finished, and an error records nothing. |
| `Receiver.FinishCommitsWhatWasStated` | src-tauri/src/server/routes.rs:524-586 | Whoever asks and whatever was done to the part before, an answered finish has committed bytes of the stated size that pass the hash check, when nothing comes between its check and its commit; `ReceiverLaws.FinishedIsTheSource` says what passing means. |
| `Receiver.Server.CancelSession` | src-tauri/src/server/state.rs:600-622 | Marks the session and deletes every part the system lets go, after which everything for that token is refused; a second cancel changes nothing. |
| `Receiver.Server.DeleteParts` | src-tauri/src/server/state.rs:612-622 | The loop deletes exactly the parts of the request, apart from refused ones. |
| `Network.FormedChunkPasses` | src-tauri/src/server/routes.rs:278-404 | Every chunk an honest sender forms, plain or encrypted, passes every size check and is accepted as itself. |
| `Network.ChunkIsHonest` | src-tauri/src/server/routes.rs:241-464 | A chunk request, answered or failed, keeps every part a prefix of its source and lets none shrink. |
| `Network.PostChunk` | src-tauri/src/client/sender.rs:1014-1028 | Whatever late requests of the same sources, other programs and the receiver's user do before and after, an answered chunk has bytes_written equal to its length and the part reaches its end. |
| `Sender.FormPayload` | src-tauri/src/client/sender.rs:1001-1012 | Forms the payload of a chunk and never fails for a chunk within the limits. |
| `Sender.Throttle` | src-tauri/src/client/sender.rs:1032-1049 | Unless a cancel breaks it off, the wait makes the chunk take at least the integer quotient of its bytes by the limit. |
| `Sender.Record` | src-tauri/src/client/sender.rs:1030-1049 | The report keeps the limit on every chunk, but for a last one whose wait was broken off. |
| `Sender.PaceOneMore` | src-tauri/src/client/sender.rs:1032-1049 | Each chunk loses less than one microsecond to the integer division, so B bytes in n chunks take more than B*10^6/L - n microseconds. |
| `Sender.SendLoop` | src-tauri/src/client/sender.rs:946-1052 | The loop ends; the offset is always where the file stands; reported progress never goes back; the limit is kept over all chunks, or all but the last when a cancel breaks its wait off; every sealing is of the source; and a normal end has sent min(limit, size - start) bytes that are all in the part. |
| `Sender.SendOne` | src-tauri/src/client/sender.rs:999-1028 | The chunk is what the file holds where it stands, goes out under the offset, and moves both by its length when it is answered. |
| `Sender.SendFileChunks` | src-tauri/src/client/sender.rs:909-1053 | The same from the entry checks on: a start past the end is refused before any progress is reported. |
| `Sender.SendResumable` | src-tauri/src/client/sender.rs:1106-1145 | A resumed send starts no earlier than the part reached when it began, so no byte that was there is sealed or sent again; one that ends normally in a session still alive leaves exactly the source in the part file. |
| `Sender.AskOffset` | src-tauri/src/client/sender.rs:1127-1131 | The answered offset is at least the length of the part before the question and, in a live session, at most its length after it. |
| `Sender.ChunkLength` | src-tauri/src/client/sender.rs:985-1000 | A chunk is as long as the chunk size, the rest of the file, the cipher's limit and the limit of the send allow, and no shorter. |
| `Batch.RunBatch` | src-tauri/src/commands.rs:683-912 | On every path one history record is written and both registries are cleared; the confirmed files are the first ones of the batch, at pairwise distinct paths that were free, each with its own bytes; the record says completed if and only if that is all of them, and cancelled whenever the user has cancelled; and nothing was sealed twice under one file key and nonce but the same text. |
| `Batch.SendFile` | src-tauri/src/commands.rs:683-868 | A file is recorded as cancelled if and only if the user has cancelled by then or the receiver refused it as cancelled, and goes on to its finish if and only if it was sent and nobody has. |
| `Batch.SendAndFinish` | src-tauri/src/commands.rs:683-905 | It is saved if and only if its send and its finish were answered with success and the user has not cancelled in between. |
| `BatchClash.ConfirmedFileIsOverwritten` | src-tauri/src/commands.rs:683-912 | In every batch, encrypted or not, in which a file's target meets the part of a later file, with the names before taken, the first file can be confirmed at that part path, the status of the later file then answers with the first one's length, and the chunk an honest sender forms from there changes the confirmed file. |
| `BatchClash.ClashHappens` | src-tauri/src/storage/file_manager.rs:133-221 | Such batches exist for every later file: the first only has to be named like its part. |
| `Batch.DestinationsKeepClear` | src-tauri/src/storage/file_manager.rs:133-189 | A target that does not look like a part file keeps clear of all parts, so the condition of the batch results can be seen from its name. |
| `Batch.SendFiles` | src-tauri/src/commands.rs:683-905 | The loop over the files stops at the first failure and keeps what was saved before. |
| `Batch.FinishFile` | src-tauri/src/commands.rs:869-904 | A confirmed finish has saved exactly the source at a path nobody used. |
| `Batch.FinishIsHonest` | src-tauri/src/server/routes.rs:524-618 | A finish request of an honest run commits the whole source and leaves the other parts alone. |
| `Batch.SavedStay` | src-tauri/src/commands.rs:683-912 | Files saved earlier in the batch stay as they are. |
| `Pairing.PairingRegistry.PairStart` | src-tauri/src/server/state.rs:278-325 | Counts, rotates, answers and enters a run; the state and answer are those of the specification in every branch. |
| `Pairing.PairingRegistry.PairFinish` | src-tauri/src/server/state.rs:329-350 | Takes the run out, and stores its key if the confirmation is right and in time, as `PairingProofs.FinishExactly` spells out. |
| `Pairing.PairingRegistry.Persist` | src-tauri/src/server/state.rs:129-143 | The file gets the stored keys in order, or stays as it is when the write fails. |
| `Pairing.PairingRegistry.LoadAcceptedPairings` | src-tauri/src/server/state.rs:353-369 | The loop merges the file into the register and keeps the last 256 pairings. |
| `Pairing.PairingRegistry.SetPersistence` | src-tauri/src/server/state.rs:373-382 | Starting writes the file, stopping deletes it. |
| `Pairing.PairingRegistry.ForgetAcceptedPairings` | src-tauri/src/server/state.rs:385-392 | Empties the register and deletes the file. |
| `Pairing.PairingRegistry.SetPairingWindow` | src-tauri/src/server/state.rs:405-407 | Opens pairing for a while from now on, or closes it, as the runs of the register take it. |
| `Pairing.OldestExists` | src-tauri/src/server/state.rs:313-322 | A full table has an oldest run to make room with. |
| `PairingRuns.AlwaysValid` | src-tauri/src/server/state.rs:278-392 | In every reachable state the queue lists exactly the ids with keys, once each, at most 256 of them, and none that still waits. |
| `PairingRuns.OrderIsRecentHistory` | src-tauri/src/server/state.rs:341-347 | The queue is the last 256 pairings confirmed since everything was last forgotten, in order. |
| `PairingRuns.ConfirmationIsInTime` | src-tauri/src/server/state.rs:329-338 | Every confirmation has an answered start of the same run less than 60 seconds before. |
| `PairingRuns.ConfirmedAtMostOnce` | src-tauri/src/server/state.rs:329-334 | No start is confirmed twice. |
| `PairingProofs.StartExactly` | src-tauri/src/server/state.rs:278-325 | A start is refused as not open, as too many, or for its message, each if and only if the window is closed, the minute is full, or the key exchange does not answer it under the PIN then shown; no start changes a stored key. |
| `PairingProofs.FinishExactly` | src-tauri/src/server/state.rs:329-350 | A finish stores a key if and only if its run waits, for less than 60 seconds, for just the tag it carries; then it stores the run's key, and at most the oldest pairing goes; in any case the run waits no longer. |
| `PairingProofs.KeyComesFromProof` | src-tauri/src/pairing/pake.rs:155-161 | In every run of the register, when a finish gives an id a key that it did not have, an earlier start of that id was answered with a state, less than 60 seconds before, whose expected tag the finish carried, and the key is that state's. |
| `PairingProofs.HonestClientIsPaired` | src-tauri/src/server/state.rs:329-350 | Conversely, at limits up to half the table, a client that was answered and sends the expected tag in its first finish within a minute is paired with that state's key, whatever others start and finish in between. |
| `PairingProofs.OthersStoreNoKey` | src-tauri/src/server/state.rs:278-407 | No other event but loading a file gives an id a key. |
| `PairingProofs.CountedOnlyWhileOpen` | src-tauri/src/server/state.rs:282-284 | A start is counted only before the end of the window the user last opened, with no closing since. |
| `PairingProofs.PinExactly` | src-tauri/src/server/state.rs:291-303 | The PIN changes exactly when a counted start finds as many unconfirmed ones before it as a PIN may have, or when the user asks for another. |
| `PairingProofs.LoadOneExactly` | src-tauri/src/server/state.rs:356-363 | An entry with the text of a key, in either case, is stored under its id in the place of an earlier one or at the end; any other entry is skipped. |
| `PairingProofs.TrimmedExactly` | src-tauri/src/server/state.rs:364-368 | The pairings kept are the last ones of the queue, with their keys. |
| `PairingProofs.NothingIsLeftToLoad` | src-tauri/src/server/state.rs:373-392 | After pairings are forgotten, or no longer remembered, a restart loads none. |
| `PairingRuns.WindowCountsStarts` | src-tauri/src/server/state.rs:284-292 | A counting window takes at most N starts, and its counter counts them. |
| `PairingRuns.AnyMinuteTakesTwiceTheLimit` | src-tauri/src/server/state.rs:284-292 | Any span of less than 60 seconds takes at most 2N starts. |
| `PairingRuns.TwiceTheLimitIsReached` | src-tauri/src/server/state.rs:284-292 | The bound is reached: for every N, every PIN and every answering key exchange there is a run that takes and answers 2N starts within one nanosecond. |
| `PairingRuns.MoreThanTheLimitNeedsANewWindow` | src-tauri/src/server/state.rs:284-292 | A span that takes more than N starts has a counting window begin in it. |
| `PairingRuns.NoRunIsEvicted` | src-tauri/src/server/state.rs:311-322 | At a start fewer than 2N unexpired runs wait, so at the default limits the branch for a full table is never reached. |
| `PairingRuns.WaitersAreBounded` | src-tauri/src/server/state.rs:311-323 | At most 2N runs ever wait for their confirmation. |
| `PairingRuns.GuessesPerPin` | src-tauri/src/server/state.rs:291-303 | Between two confirmations no issue of the PIN answers more starts than the limit, 10 by default, whatever is finished or regenerated in between. |
| `PairingRuns.CounterIsBounded` | src-tauri/src/server/state.rs:292-298 | The counter of unconfirmed starts never exceeds the limit. |
| `PairingRuns.ListingLoads` | src-tauri/src/server/state.rs:129-143 | Loading a written listing appends its pairings with their keys. |
| `PairingRuns.RestartKeepsPairings` | src-tauri/src/server/state.rs:353-369 | While pairings are remembered and the writes of the file succeed, a device that restarts at any moment and loads the file has the same pairings in the same order. |
| `PairingRuns.AlwaysMirrors` | src-tauri/src/server/state.rs:373-392 | The file holds what the register holds, through every confirmation, forget and change of the setting whose write succeeds. |
| `Tracker.KeyInjective` | src-tauri/src/discovery/udp.rs:129-131 | An entry key names one address and port. |
| `Tracker.IpPriority` | src-tauri/src/discovery/udp.rs:133-144 | The loop finds the rank of an address. |
| `Tracker.RankIsFirstPlace` | src-tauri/src/discovery/udp.rs:133-144 | The rank is the first place of the address's subnet in the list, or the worst value if it is in none. |
| `TrackerLaws.Ipv4Exactly` | src-tauri/src/discovery/udp.rs:133-144 | A text is read as an address if and only if it is its four numbers in plain decimals with dots between. |
| `TrackerLaws.PriorityExactly` | src-tauri/src/discovery/udp.rs:133-144 | The rank of an address is the first place in the list of its first three numbers followed by 0, or the worst value. |
| `TrackerLaws.NoAddressIsWorst` | src-tauri/src/discovery/udp.rs:133-144 | A text that is no address has the worst rank. |
| `Tracker.PeerTracker.RecordSeenWithSource` | src-tauri/src/discovery/udp.rs:150-221 | The map and event after a sighting, for whichever entry the search finds. |
| `TrackerLaws.SeenEventExactly` | src-tauri/src/discovery/udp.rs:150-221 | A sighting is announced if and only if it changes what is listed, and as a discovery if and only if neither its address nor its device was listed. |
| `Tracker.PeerTracker.PruneExpired` | src-tauri/src/discovery/udp.rs:223-257 | Removes exactly the expired entries and emits one Lost event for each. |
| `Tracker.PeerTracker.PruneExpiredManual` | src-tauri/src/discovery/udp.rs:259-295 | The same for entries not seen by broadcast. |
| `TrackerLaws.PrunedExactly` | src-tauri/src/discovery/udp.rs:223-295 | An entry goes if and only if it was last seen longer ago than its source allows, in numbers; the other pruning leaves broadcast peers alone. |
| `Tracker.PeerTracker.RemovePeer` | src-tauri/src/discovery/udp.rs:309-312 | Removes one address and reports it if it was there. |
| `Tracker.ManualPruneFirst` | src-tauri/src/discovery/udp.rs:223-295 | Pruning manual entries and then all at the same instant leaves the map that pruning all leaves. |
| `TrackerRuns.SeenKeepsUniqueExactly` | src-tauri/src/discovery/udp.rs:158-210 | A sighting keeps device names unique if and only if it is not of an address listed for another device while its own device is listed elsewhere. |
| `TrackerRuns.AlwaysGood` | src-tauri/src/discovery/udp.rs:150-312 | As long as no address changes its device, one device has one entry under its own address, in every run. |
| `TrackerRuns.EntryIsLatestBest` | src-tauri/src/discovery/udp.rs:150-295 | From any moment at which a device is not listed, through all sightings, prunings and removals that leave its entry, that entry is the most recent sighting among the device's best addresses, marked with its last sighting on any address. |
| `TrackerRuns.RemovalStartsOver` | src-tauri/src/discovery/udp.rs:223-312 | A pruning or removal that does not leave the entry takes all there is of the device, so its next sighting is a first one again. |
| `TrackerRuns.ReplayIsTrueExactly` | src-tauri/src/discovery/udp.rs:150-312 | A listener that replays all events by device name has the devices of the tracker after every step if and only if no unnamed device is seen on a new address while another unnamed one is listed. |
| `TrackerRuns.ListedByNameExactly` | src-tauri/src/discovery/udp.rs:168-175 | A list by name exists exactly while no two entries share a name, the empty one included. |
| `TrackerRuns.ShownIsGetPeers` | src-tauri/src/discovery/udp.rs:297-299 | That list is what get_peers returns. |
| `TrackerRuns.PruneEvents` | src-tauri/src/discovery/udp.rs:223-257 | The events of a pruning are the losses of exactly the removed entries. |

## Left out

- Receiver.Server.HandleChunk: does not model the 64-bit wrap-around of `offset + length`, because offsets are bounded by the declared size and bodies by memory; a cancel can come between its two session checks, and all other interleavings with handlers are those of `Machine`, which carries honest chunks only and leaves out the size checks and the cipher.
- Receiver.Server.HandleFinish: its session check, its check of the part, its commit and the session update are one step; `Machine` has them apart, each with any steps of other requests in between.
- Receiver.Server.CommitChecked: a cancel between the commit and the session update is not a case here, as in HandleFinish.
- Receiver.FinishCommitsWhatWasStated: only when nothing comes between the check and the commit; `MachineSaved.RestCanSaveNothing` shows a run in which something does, and an empty file is saved.
- Receiver.Server.CancelSession: a finish request on its way, which can make the session a completed one afterwards, is not a case here; `MachineRevival` says when it does.
- Network.PostChunk: a cancel or finish of the same part through another session, in between the chunks of a send, is not among what others do there; `Machine` has both, and `Machine` and `Receiver.FinishCommitsWhatWasStated` say what then holds.
- Storage.Disk.GetUniqueDestPath: others only create files while the search runs, and finitely many; a name that is deleted behind the search is not found.
- Sender.Throttle: a pause or resume during the wait, which cuts it short, is not modelled, and the speed limit is constant during a send; requires chunk bytes times 10^6 below 2^64, which every chunk that fits into memory meets; the cast of the quotient to 64 bits is modelled.
- Batch.RunBatch: its finish requests are one step each, so a cancel by the receiver together with a late request between the check and the commit of one, by which a wrong file can be confirmed, is not a case; assumes files under their own ids, sizes and hashes as the sender's metadata states them.
- Batch.SendFiles: the same one-step finish.
- Batch.FinishFile: the same one-step finish.
- Batch.FinishIsHonest: the same one-step finish.
- Sender.SendLoop: a pause, in which the loop waits, is not modelled, so the pace is that of a send without one.
- Sender.SendFileChunks: the same as SendLoop.
- Pairing.PairingRegistry.PairStart: runs as one step at one instant, where the code releases its lock while it computes the answer; the counters are unbounded, where the code has 32 bits; changing the limits in the middle of a run is not an event.
- Pairing.PairingRegistry.ForgetAcceptedPairings: a failing deletion of the file, which the code ignores, is not modelled.
- Pausing and resuming: whether a paused sender wakes up depends on the runtime.
- Idle sessions are not pruned, and the download folder does not change during a run.
- A part path that is a folder, or a folder in the place of a part, is answered with an input/output error where it matters and not followed further.
- The slice of a stated hash text at 16 bytes is modelled on characters; texts with other than ASCII characters, for which the code can stop, are not.
- `check_encrypted_request` is called before the prompt and again when the session is made; the model calls it once.
- The insides of SPAKE2, X25519, HKDF, ChaCha20-Poly1305 and BLAKE3; answering a pairing run is any function of the PIN.
- In `Machine` the copy fallback of a commit is not split into steps; `Storage` has it. Two files of one session with the same part path count as one file there.
- A stated hash with characters that a file name may not have, a separator above all, gives a part path of more than one component in the code; here a part path is one component, and `Names.PartNameIsSafeExactly` says when that is a safe name.
- HTTP, sockets, mDNS, UDP packets, adapter lists, the aggregator behind the tracker, settings, history files, tray, notifications and the JavaScript frontend: plumbing and display.
- `ThroughputTracker` and percentages: floating-point display values.
