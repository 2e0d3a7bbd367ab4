# VirtualLearn core, modelled in Dafny

VirtualLearn is a study-room web application with video chat, a voice assistant, an AI tutor, LangChain study agents and PDF-to-flashcard processing. This project models its deterministic core and proves properties of the model:

- `WebRTCManager` (lib/webrtc.ts). It holds the local capture, a table of peer connections keyed by user id and a table of remote streams. It answers signalling messages and browser events, toggles tracks and cleans up.
- The `VideoCall` component (components/video-call.tsx). It drives a manager: it captures, opens a connection to every other participant, toggles video and audio, lays out the remote tiles and cleans up on unmount.
- `VoiceInteraction` (lib/voice-interaction.ts). Speech recognition start/stop, the final-transcript loop of `onresult`, and speech synthesis with its preferred-voice choice.
- `BlobStorage` (lib/blob-storage.ts). Upload paths, the ordered multi-upload, file names and extensions from URLs, and the type and size validators.
- The LangChain study agent (lib/langchain-agents.ts). The agent factory, the system prompt, and how a run becomes an answer: reasoning, suggested actions, confidence and sources. Also the `processQuery` guard and the discussion of a collaborative session.
- The AI tutor (lib/ai-tutor.ts). The personality table, the system prompt, and the document processing result.
- The upload page (app/documents/upload/page.tsx). The PDF list, the drag flag, and the processing run with its progress and result counts.
- The processing route (app/api/documents/process/route.ts). The `processing_status` transitions and the `ai_results` fallbacks.

Code that updates state in place is a class: `WebRTC.Manager`, `WebRTC.PeerConnection`, `WebRTC.Track`, `VideoCall.VideoCall`, `VoiceInteraction.VoiceInteraction`, `LangchainAgents.StudyAgent`, `UploadPage.UploadPage` and `ProcessRoute.DocumentsTable`. The source's loops are methods with loop invariants, each proved against a specification function. Pure code is functions and lemmas.

Everything the code reaches outside itself is a parameter:

- `getUserMedia`: a `Devices` value.
- The SDP that `createOffer` and `createAnswer` produce: strings.
- Whether the browser accepts a description or candidate: a flag.
- `Date.now()`: a sequence of time stamps.
- The blob store `put`/`del`, database inserts, `fetch`, the language models and `JSON.parse`: functions.

The signalling stub, callback invocations, recognizer and synthesizer calls and the requests the page sends are recorded in sequence fields. Each browser event or async continuation is one atomic method call.

Shared modules: `Wrappers` (Option, Result), `Strings` and `Json`. `Strings` holds the JavaScript string operations the core uses: split, join, ASCII `toLowerCase`, includes, startsWith, trim over the ECMAScript white space set, and decimal printing. `Json` is parsed values with JavaScript truthiness, field access, `?.length` and `||`.

## Model

| member | source | states |
|---|---|---|
| WebRTC.Manager.InitializeLocalStream | lib/webrtc.ts:12-23 | The capture uses 640x480 video when video is asked for, and the audio flag as given. A failure is returned and the previous stream is kept. A success replaces the stream with fresh, enabled, live tracks of exactly the requested kinds, without stopping the previous tracks. |
| WebRTC.CaptureConstraints | lib/webrtc.ts:14-17 | The video constraint is 640x480 exactly when video is requested; audio is passed through. |
| WebRTC.CaptureKinds | lib/webrtc.ts:14-17 | A capture succeeds iff something is requested, permitted and present. It then has one track per requested kind and no other, so an audio-only capture has no video. |
| WebRTC.FirstOfKind | lib/webrtc.ts:103-112 | The index found holds a track of the kind and no earlier track has it; none means no track of the kind. |
| WebRTC.Manager.CreatePeerConnection | lib/webrtc.ts:25-74 | Files a fresh, open connection under the user id, replacing any previous one without closing it. It carries every current local track. An initiator sets its offer as local description and sends exactly one offer to that user; a responder sends nothing. The table invariant is kept: each entry belongs to its key and is open. |
| WebRTC.Manager.OnTrack | lib/webrtc.ts:41-45 | The remote stream is filed under the connection's user id, and the remote-stream callback fires once if one is registered. |
| WebRTC.Manager.OnIceCandidate | lib/webrtc.ts:48-55 | A non-null candidate sends exactly one ice-candidate message to that user; a null one sends nothing. |
| WebRTC.Manager.OnConnectionStateChange | lib/webrtc.ts:58-62 | `disconnected` and `failed` close and drop whatever connection is filed under the user id, drop its remote stream and fire the disconnect callback once. Every other state changes nothing, not even the filed connection. |
| WebRTC.Manager.HandleUserDisconnected | lib/webrtc.ts:119-127 | Closes and removes the filed connection and removes the remote stream. Fires the disconnect callback whether or not a connection was filed. The closed connection keeps its descriptions, candidates and tracks, and the manager changes nothing else. |
| WebRTC.Manager.HandleSignalingMessage | lib/webrtc.ts:76-99 | No connection means the message is dropped and nothing is sent. An accepted offer sets the remote offer and local answer and sends exactly one answer. An answer only sets the remote description, and a candidate is only appended. A rejection stops before any change, and unknown types are ignored. Tracks and the closed flag never change. |
| WebRTC.Manager.ToggleVideo | lib/webrtc.ts:101-108 | Sets `enabled` on the first video track only. Does nothing without a stream or a video track. Other tracks keep `enabled` and no track's `stopped` changes. |
| WebRTC.Manager.ToggleAudio | lib/webrtc.ts:110-117 | The same for the first audio track. |
| WebRTC.Manager.OnRemoteStream | lib/webrtc.ts:135-137 | The remote-stream slot holds the new callback. |
| WebRTC.Manager.OnUserDisconnected | lib/webrtc.ts:139-141 | The disconnect slot holds the new callback. |
| WebRTC.Manager.Cleanup | lib/webrtc.ts:143-150 | Every filed connection is closed and keeps its descriptions, candidates and tracks, both tables are empty and every local track is stopped (its `enabled` kept). Nothing is sent, no callback fires and the stream reference stays. |
| WebRTCScenarios.OfferAnswerExchange | lib/webrtc.ts:64-93 | After an initiator's offer and a responder's answer, each side holds both descriptions the right way round. |
| WebRTCScenarios.MessageFromUnknownPeer | lib/webrtc.ts:77-78 | An offer from a user without a connection creates nothing and sends nothing. |
| WebRTCScenarios.StaleFailureClosesReplacement | lib/webrtc.ts:30-62 | A replaced connection stays open, and its later failure closes and removes the connection that replaced it. |
| WebRTCScenarios.AudioOnlyCall | lib/webrtc.ts:14-38 | An audio-only call carries a single audio track. |
| WebRTCScenarios.RecaptureKeepsOldTracksLive | lib/webrtc.ts:14 | Capturing again leaves the first capture's tracks live and out of the new stream. |
| WebRTCScenarios.VideoOffMutesEveryConnection | lib/webrtc.ts:101-108 | Turning video off disables the one video track that every connection shares, and leaves audio on. |
| WebRTCScenarios.CleanupTwice | lib/webrtc.ts:143-150 | After two cleanups the connection is closed, the table is empty and every track is stopped. |
| VideoCall.VideoCall.constructor | components/video-call.tsx:16-20 | A fresh manager, no stream, no remote streams, video and audio on. |
| VideoCall.VideoCall.InitializeCall | components/video-call.tsx:33-61 | Captures with the media flags; the mount effect is its only caller, so these are the flags at mount, both on. On failure it records the error and changes nothing else. On success it keeps the stream, registers the remote-stream handler and offers to exactly the participants whose id is not the user's, in list order: one connection each, filed under their id, with the local tracks and the offer as local description. |
| VideoCall.VideoCall.ConnectToOthers | components/video-call.tsx:53-57 | The `forEach` loop: the outbox gains one offer per other participant in order, and the table gains one connection per other participant id and no other. |
| VideoCall.Others | components/video-call.tsx:54 | No kept participant has the user's id. |
| VideoCall.OthersAppend | components/video-call.tsx:53-57 | The filter distributes over concatenation, so list order is kept. |
| VideoCall.OthersKeepsEveryOther | components/video-call.tsx:54 | Every participant with another id is kept as often as it occurs, and the user is never kept. |
| VideoCall.OthersSubset | components/video-call.tsx:53-57 | Only listed participants are kept. |
| VideoCall.OffersTo | lib/webrtc.ts:64-71 | One offer per participant, to that participant, in order. |
| VideoCall.VideoCall.ToggleVideo | components/video-call.tsx:63-67 | Negates the video flag, leaves the audio flag, and sets the first video track's `enabled` to the new flag. Other tracks keep `enabled` and no track is stopped. |
| VideoCall.VideoCall.ToggleAudio | components/video-call.tsx:69-73 | The same for audio. |
| VideoCall.VideoCall.DeliverRemoteTrack | components/video-call.tsx:43-50 | A track event files the stream in the manager and, when this component's handler is registered, in the component's remote-stream map under the same id. |
| VideoCall.VideoCall.Unmount | components/video-call.tsx:28-30 | Unmounting is a manager cleanup with all its guarantees: every filed connection closed with its descriptions, candidates and tracks kept, both tables empty, every local track stopped with `enabled` kept. The stream reference, both callback slots, the outbox and the fired callbacks stay as they were. |
| VideoCall.RemoteTilesShape | components/video-call.tsx:102-139 | At most three tiles and none for the user. The tiles are exactly the participants among the first three whose id is not the user's, in list order, each with a tile of its own. The placeholder avatar is shown iff no stream is filed for that id, and a stream is shown iff it is filed. The avatar shows the participant's avatar, or "/placeholder.svg" when it is missing or empty. |
| VideoCall.Shown | components/video-call.tsx:102 | `slice(0, 3)`: the first three participants, or all of them when there are fewer. |
| VideoCall.InitialsHaveNoBlank | components/video-call.tsx:126-129 | The fallback initials never contain a blank. |
| VideoCall.FirstCharacters | components/video-call.tsx:126-129 | Each initial is the first character of some word, at most one per word. |
| VideoCall.FirstCharactersAppend | components/video-call.tsx:126-129 | The initials of two word lists in a row are the initials of the first followed by those of the second, so every word puts its initial in its own place. |
| VideoCall.FirstCharactersOfWord | components/video-call.tsx:128 | A word contributes its first character, and an empty word (whose `n[0]` is undefined) nothing. |
| VideoCall.FirstCharactersOfWords | components/video-call.tsx:126-129 | Non-empty words give exactly one initial each, the word's first character, in word order. |
| VoiceInteraction.VoiceInteraction.constructor | lib/voice-interaction.ts:10-25 | A recognizer exists iff a webkit or standard constructor does (webkit preferred), set to continuous, interim results, "en-US". Supported iff recognizer and synthesizer both exist. |
| VoiceInteraction.VoiceInteraction.StartListening | lib/voice-interaction.ts:54-73 | Without a recognizer it reports "Speech recognition not supported" and returns false. While listening it returns true and does nothing. Otherwise it starts and returns true, unless `start` throws: then it reports "Failed to start listening", stays idle and returns false. |
| VoiceInteraction.VoiceInteraction.StopListening | lib/voice-interaction.ts:75-80 | Calls `stop` only while listening; afterwards it is not listening. |
| VoiceInteraction.FinalTranscript | lib/voice-interaction.ts:28-35 | The loop from `resultIndex` concatenates exactly the final transcripts in order. |
| VoiceInteraction.FinalsAppend | lib/voice-interaction.ts:30-35 | Collecting final transcripts distributes over concatenation. |
| VoiceInteraction.FinalsIgnoresInterim | lib/voice-interaction.ts:32-34 | Interim results add nothing, and one final result adds exactly its transcript. |
| VoiceInteraction.VoiceInteraction.HandleResult | lib/voice-interaction.ts:27-40 | The final transcripts are concatenated; when that untrimmed text is non-empty and a callback is set, the callback gets it trimmed (so a final result of blanks delivers ""). Otherwise nothing is delivered. |
| VoiceInteraction.VoiceInteraction.HandleError | lib/voice-interaction.ts:42-46 | The error goes to the error callback if one is set; listening stops. |
| VoiceInteraction.VoiceInteraction.HandleEnd | lib/voice-interaction.ts:48-50 | Listening stops. |
| VoiceInteraction.PreferredVoice | lib/voice-interaction.ts:101-104 | The first voice whose name contains "Google" or "Microsoft" or whose language starts with "en", or none when no voice qualifies. |
| VoiceInteraction.VoiceInteraction.Speak | lib/voice-interaction.ts:82-112 | Without a synthesizer it rejects with "Speech synthesis not supported" and calls nothing. Otherwise it cancels, then speaks one utterance of the text with the preferred voice if there is one. |
| VoiceInteraction.VoiceInteraction.StopSpeaking | lib/voice-interaction.ts:114-118 | Cancels exactly when a synthesizer exists. |
| VoiceInteraction.VoiceInteraction.OnTranscript | lib/voice-interaction.ts:120-122 | The transcript slot holds the new callback. |
| VoiceInteraction.VoiceInteraction.OnError | lib/voice-interaction.ts:124-126 | The error slot holds the new callback. |
| BlobStorage.UploadPathShape | lib/blob-storage.ts:6 | The path is the folder, "/", the decimal time stamp, "-" and the name, in that order. |
| BlobStorage.UploadFile | lib/blob-storage.ts:4-16 | Returns the store's URL, or "File upload failed" whatever the store's error. |
| BlobStorage.UploadMultipleFiles | lib/blob-storage.ts:27-30 | Succeeds iff every upload does. It then yields one URL per file, in input order; otherwise "File upload failed". |
| BlobStorage.DeleteFile | lib/blob-storage.ts:18-25 | Succeeds iff the store does; otherwise "File deletion failed". |
| BlobStorage.ExtractFileNameIsLastSegment | lib/blob-storage.ts:32-34 | The name is the text after the last "/" (the whole URL without one), or "unknown" when that is empty. |
| BlobStorage.FileNameOfUploadPath | lib/blob-storage.ts:6-34 | The name taken from an uploaded file's URL is its time stamp, "-" and its name. |
| BlobStorage.FileExtensionIsLastSegment | lib/blob-storage.ts:36-38 | The extension is the lower-cased text after the last ".", or the whole lower-cased name without a dot. |
| BlobStorage.ValidateFileType | lib/blob-storage.ts:40-42 | True iff the MIME type is among the allowed ones. |
| BlobStorage.FileSizeLimit | lib/blob-storage.ts:44-47 | Exactly the limit in MiB passes and one byte more does not. A smaller file or a larger limit never turns a pass into a failure. |
| Strings.LastPiece | lib/blob-storage.ts:33-37 | The last piece of a split is the text after the last separator. |
| Strings.JoinSplit | lib/blob-storage.ts:33 | Joining a split with its separator gives the input back. |
| Strings.SplitJoin | lib/ai-tutor.ts:43 | Splitting a join of pieces free of the separator gives the pieces back. |
| LangchainAgents.CreateAgent | lib/langchain-agents.ts:570-583 | On the lower-cased subject: "math"/"mathematics" gives the math agent, "physics"/"chemistry"/"biology" the science agent, every other subject the plain agent. |
| LangchainAgents.CreateAgentIgnoresCase | lib/langchain-agents.ts:572 | The choice does not depend on capitalisation. |
| LangchainAgents.LastN | lib/langchain-agents.ts:358 | `slice(-n)` is the last n elements, or all of them when there are fewer; since `-0` is `0`, n = 0 keeps all of them. |
| LangchainAgents.PromptShowsLastThreeQuestions | lib/langchain-agents.ts:351-363 | The system prompt contains the line of the last three previous questions joined by "; ". |
| LangchainAgents.OldestQuestionForgotten | lib/langchain-agents.ts:358 | With three or more questions, an older question added in front leaves the prompt unchanged. |
| LangchainAgents.Logs | lib/langchain-agents.ts:368-370 | The kept logs are all non-empty, and there are no more of them than steps. |
| LangchainAgents.LogsOfLoggedSteps | lib/langchain-agents.ts:368-370 | When every step has a log, the logs are exactly the steps' logs, in order. |
| LangchainAgents.LogsOfStep | lib/langchain-agents.ts:368-370 | One step keeps its log exactly when the log (or `""` for a step without an action) is not empty. |
| LangchainAgents.LogsAppend | lib/langchain-agents.ts:368-370 | Collecting logs distributes over concatenation; with the one-step case, the logs are exactly the non-empty logs of the steps, in step order. |
| LangchainAgents.ExtractReasoning | lib/langchain-agents.ts:365-374 | With reported steps (even none), the non-empty logs joined by " "; without them, the fixed sentence. |
| LangchainAgents.ReasoningOfSilentRun | lib/langchain-agents.ts:367-371 | Steps without logs give empty reasoning, not the fixed sentence. |
| LangchainAgents.SuggestedActions | lib/langchain-agents.ts:376-390 | Always the same three first. Beginner adds "Start with fundamental concepts", advanced adds "Explore advanced applications and edge cases", intermediate adds nothing. |
| LangchainAgents.GenerateSuggestedActions | lib/langchain-agents.ts:376-390 | The pushing method yields the suggested actions of the level; the query plays no part. |
| LangchainAgents.Confidence | lib/langchain-agents.ts:392-402 | In hundredths, one of 70, 80, 90, 100: 100 iff tools were used and the output is detailed, 90 iff only tools, 80 iff only detailed, 70 iff neither. |
| LangchainAgents.CalculateConfidence | lib/langchain-agents.ts:392-402 | The accumulator and cap compute the confidence. |
| LangchainAgents.Sources | lib/langchain-agents.ts:404-417 | Never empty: one "Uploaded documents" per document_search step, or exactly "AI knowledge base" when there is none. |
| LangchainAgents.ExtractSources | lib/langchain-agents.ts:404-417 | The `forEach` loop computes the sources. |
| LangchainAgents.ActionLinesOfLine | lib/langchain-agents.ts:422-423 | One line is kept exactly when it contains "next step", "action" or "recommend". |
| LangchainAgents.ActionLinesAppend | lib/langchain-agents.ts:422-423 | The line filter distributes over concatenation, so order is kept. |
| LangchainAgents.TrimKeepsActionLine | lib/langchain-agents.ts:423-424 | A trimmed action line still contains its keyword. |
| LangchainAgents.ExtractActionItems | lib/langchain-agents.ts:419-426 | At most five items. Each contains "next step", "action" or "recommend", case-sensitively. They are the first trimmed action lines of the analysis in their original order, and all of them when fewer than five. |
| LangchainAgents.FullQueryShape | lib/langchain-agents.ts:144 | The executor's input opens with the system prompt and ends with the user's query. |
| LangchainAgents.StudyAgent.constructor | lib/langchain-agents.ts:31-49 | No executor and no vector store yet. |
| LangchainAgents.StudyAgent.InitializeAgent | lib/langchain-agents.ts:51-122 | The executor, with three iterations, exists only after the agent was built; a failure leaves it unset. |
| LangchainAgents.StudyAgent.LoadDocuments | lib/langchain-agents.ts:125-135 | The store holds the loaded documents. |
| LangchainAgents.StudyAgent.DocumentSearch | lib/langchain-agents.ts:55-62 | Without a store, "No documents available for search"; otherwise the results of a similarity search for the best three matches, joined by blank lines. |
| LangchainAgents.StudyAgent.ProcessQuery | lib/langchain-agents.ts:138-162 | Without an executor it fails with "Agent not initialized". An executor error is passed on. Otherwise the answer has the run's output, reasoning, level's actions, confidence and sources. |
| LangchainAgents.StudyAgent.CollaborativeStudySession | lib/langchain-agents.ts:207-298 | Exactly four entries, prefixed Teacher, Student, Teacher, Learning Analyst. Each speaker's input is what came before. The analyst sees the first three joined by blank lines, the synthesis sees all four, and the action items are extracted from the analysis. |
| AITutor.Personality | lib/ai-tutor.ts:58-81 | The table entry of the lower-cased subject for the eight listed subjects. The default sentence exactly for every other subject. |
| AITutor.PersonalityIgnoresCase | lib/ai-tutor.ts:78 | The lookup does not depend on capitalisation. |
| AITutor.PersonalityAsWritten | lib/ai-tutor.ts:77-80 | As written, the object lookup also answers for the inherited keys "constructor" and "__proto__". |
| AITutor.InheritedKeyLeaksIntoPrompt | lib/ai-tutor.ts:37-39 | For the subject "Constructor" the prompt as written opens with the printed `Object` constructor as personality, and so differs from the intended prompt. |
| AITutor.PersonalityAgreesOffPrototype | lib/ai-tutor.ts:77-80 | Away from the inherited keys, the code as written and the corrected lookup agree. |
| AITutor.PromptOpensWithPersonality | lib/ai-tutor.ts:37-39 | The prompt as written opens with "You are an AI tutor specializing in {subject}. " and the personality of the object lookup; the intended prompt opens the same way with the corrected lookup. |
| AITutor.PromptAgreesOffPrototype | lib/ai-tutor.ts:37-39 | Away from the inherited keys the prompt as written is the intended one. |
| AITutor.PromptShowsConversation | lib/ai-tutor.ts:43 | Whichever lookup supplies the personality, the prompt contains the conversation line. |
| AITutor.ConversationReadsBack | lib/ai-tutor.ts:43 | Splitting the conversation line at line breaks gives back exactly the recent messages, in order, when none holds a line break; with no messages the line is empty after its label. |
| AITutor.PromptShowsDocumentContext | lib/ai-tutor.ts:44 | Whichever lookup supplies the personality: with a non-empty document context the prompt shows it on its own line and is exactly that line longer. Otherwise the prompt is the one without context. |
| AITutor.DocumentPromptCarriesContent | lib/ai-tutor.ts:87-102 | The processing prompt holds the whole file content between the request and the response format, so different contents never give the same prompt. |
| AITutor.ProcessDocument | lib/ai-tutor.ts:83-111 | A model error propagates; otherwise the parsed text, or null when it does not parse. |
| AITutor.ProcessDocumentNullWhenUnparsable | lib/ai-tutor.ts:105-110 | The result is `null` in two ways: the caught parse failure exactly when the model text does not parse, and a parsed `null` exactly when the text is JSON `null`. |
| Json.LengthOf | app/api/documents/process/route.ts:29-30 | `?.length` is an array's or string's length, and undefined on undefined. |
| Json.OrElse | app/api/documents/process/route.ts:29-31 | `x || fallback` keeps a truthy value and otherwise gives the fallback. |
| UploadPage.PdfOnly | app/documents/upload/page.tsx:57-63 | Only PDFs are kept. |
| UploadPage.PdfOnlyOfFile | app/documents/upload/page.tsx:57 | One file is kept exactly when its type is "application/pdf", and it is kept as it is. |
| UploadPage.PdfOnlyAppend | app/documents/upload/page.tsx:57-58 | The PDF filter distributes over concatenation, so files keep their order. |
| UploadPage.PdfOnlyKeepsPdfs | app/documents/upload/page.tsx:57 | A list of PDFs passes unchanged. |
| UploadPage.RemoveIndexSpec | app/documents/upload/page.tsx:68-70 | Removing an index in range drops exactly that element and keeps the rest in order; an index out of range changes nothing. |
| UploadPage.UploadPage.HandleDrag | app/documents/upload/page.tsx:42-50 | "dragenter" and "dragover" set the flag, "dragleave" clears it, and other types leave it. |
| UploadPage.UploadPage.HandleDrop | app/documents/upload/page.tsx:52-59 | The flag is cleared and the dropped PDFs are appended after the existing files. |
| UploadPage.UploadPage.HandleFileSelect | app/documents/upload/page.tsx:61-66 | The selected PDFs are appended; no selection changes nothing. |
| UploadPage.UploadPage.RemoveFile | app/documents/upload/page.tsx:68-70 | The list loses exactly the element at the index, or stays when the index is out of range. |
| UploadPage.InsertAll | app/documents/upload/page.tsx:87-105 | Rows come back iff every insert succeeds, one per draft in order. |
| UploadPage.UploadPage.SendAll | app/documents/upload/page.tsx:108-121 | Every request is sent in order, and the run goes on iff every one resolves. |
| UploadPage.ResultsFor | app/documents/upload/page.tsx:125-130 | For n files: 2n summaries, 15n flashcards, 3n quizzes and the five demo topics. |
| UploadPage.UploadPage.ProcessDocuments | app/documents/upload/page.tsx:72-137 | No files or no subject: nothing happens. Otherwise progress goes 0, 20, then 40, 60 and 100 as uploading, signing in, inserting and requesting succeed in turn. Each request carries the inserted row's id and URL and the subject. Results appear only on full success. The processing flag is down at the end on every path, and the progress is the last value set. |
| UploadPage.ProcessingRunShape | app/documents/upload/page.tsx:72-137 | No files or no subject: an empty run. Otherwise progress climbs through a prefix of 0, 20, 40, 60, 100 and reaches 100 exactly when uploads, sign-in, inserts and requests all succeed; only then are the results shown, for the number of files. Requests go out for every file or for none. |
| ProcessRoute.AiResultsCounts | app/api/documents/process/route.ts:27-32 | Summaries are 2. Flashcards are the list's length, or 12 when it is missing or empty. Quizzes are the list's length, or 5 when missing or empty. Missing key topics become the empty list. |
| ProcessRoute.DocumentsTable.SetStatus | app/api/documents/process/route.ts:12-38 | Only the row with that id changes, and only its status. |
| ProcessRoute.DocumentsTable.Complete | app/api/documents/process/route.ts:23-34 | The row becomes "completed" with the computed `ai_results`. |
| ProcessRoute.RowsAfter | app/api/documents/process/route.ts:5-46 | A request changes only its own row and never adds or removes rows. An unparsable body changes nothing. |
| ProcessRoute.StatusAfter | app/api/documents/process/route.ts:12-41 | A thrown AI error leaves the row "processing" with its old results. A falsy result leaves it "failed", a truthy one "completed" with the computed results. Other rows are untouched. |
| ProcessRoute.Post | app/api/documents/process/route.ts:5-46 | Marks the document processing before calling the tutor. A truthy result answers 200 with success and the results. A falsy result, a thrown error or an unparsable body answers 500 "Processing failed". The table ends as the specification function says. |

## Left out

- Async interleaving. Each browser event and each async function is one atomic step. `createPeerConnection` not being awaited in `initializeCall`, and `initializeAgent` not being awaited in the `StudyAgent` constructor, are modelled as steps the caller takes in order.
- The `beforeunload` hook (lib/webrtc.ts:152-157): it needs the window object.
- The STUN server list (lib/webrtc.ts:26-28): it is configuration only.
- Default arguments: `initializeLocalStream(video = true, audio = true)`, `createPeerConnection(userId, isInitiator = false)`, `uploadFile(file, folder = "documents")` and `uploadMultipleFiles(files, folder = "documents")` take every argument explicitly here. Every modelled caller passes them all: the video call both flags and `true`, `uploadMultipleFiles` its folder, and the upload page "documents".
- SDP and ICE internals: offers, answers and candidates are opaque. Failures of `createOffer`/`createAnswer` and a rejected `setLocalDescription` (lib/webrtc.ts:66, 84) are not modelled, only rejection of the remote description or candidate.
- A failing embeddings call in `loadDocuments` (lib/langchain-agents.ts:134) is not modelled; loading always succeeds.
- The rows the upload page inserts (app/documents/upload/page.tsx:88-103) are not kept in a table: only the requests sent after them are logged. So the model does not show that rows already inserted stay "pending" when a later insert or request fails.
- The `srcObject` assignments and `localVideoRef`/`remoteVideoRefs` elements of the video call: these are DOM effects.
- VideoCall.VideoCall.InitializeCall: does not state that the connections it creates are fresh objects; the manager's `CreatePeerConnection` states it for each one.
- Speech rate, pitch and volume (lib/voice-interaction.ts:93-95): floating point. The utterance `onend`/`onerror` callbacks that settle the `speak` promise are also out.
- VideoCall.FirstCharacters: an initial is the first character (code point) of a word; `n[0]` in the source is the first UTF-16 code unit, so a word starting outside the Basic Multilingual Plane gives a lone surrogate there.
- Console logging everywhere.
- LangchainAgents.Confidence: counts in exact hundredths. The source adds doubles, and rounding there makes the three higher sums fall just below 0.8, 0.9 and 1.0.
- LangchainAgents.IsDetailed: `length` counts code points here, UTF-16 units in the source.
- The LLM, embeddings, text splitter, LangChain hub and agent executor: these are foreign code. `ask`, `invoke` and `search` functions stand for them, and an LLM failure during a collaborative session is not modelled.
- `solveComplexProblem`, `generateAdaptiveLearningPath`, the tools other than `document_search`, and the `MathAgent`/`ScienceAgent` methods: they only forward to the LLM.
- LangchainAgents.StudyAgent.DocumentSearch: the similarity search is a parameter, so that it returns at most the three matches asked for is the store's promise and not stated here.
- The document splitting of `loadDocuments` (chunks of 1000 with overlap 200) is not modelled; the store holds the whole documents.
- `AITutor.generateResponse` and `streamResponse` (lib/ai-tutor.ts:14-34): they only pass the system prompt and message to the model.
- Strings.Lower: maps ASCII letters only; `toLowerCase` also maps other scripts.
- JSON numbers are whole numbers, and NaN is not a value.
- Supabase errors on `update`, which Supabase reports rather than throws, are not modelled; an update of a missing row changes nothing. The route's request fields are assumed present.
- The upload page's user is given as the signed-in user id or none. The `auth.getUser` call itself is not modelled, nor is navigation after results.

## Code and design

The design describes the manager more tidily than the code behaves. The model follows the code:

- A second `createPeerConnection` for a user replaces the first without closing it.
- A connection's state events resolve by user id, so a stale connection's failure tears down its replacement.
- `initializeLocalStream` does not stop the tracks of a previous capture.
- A message from a user without a connection is dropped, not answered by creating one.

In `uploadMultipleFiles` all uploads are started together, so one failure rejects the whole run. `collaborativeStudySession` does not use its `participants` argument.

## Findings

| source | as written | input that shows it | evidently intended | confidence | as-written member | corrected member |
|---|---|---|---|---|---|---|
| lib/ai-tutor.ts:77-80 | The personality is looked up on a plain object literal, so lower-cased subjects naming inherited properties find them. | subject "Constructor" (or "__proto__"): the prompt shows the printed `Object` constructor (or "[object Object]") as the personality | any subject outside the eight gets the default sentence | not executed | AITutor.PersonalityAsWritten | AITutor.Personality |
