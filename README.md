# nomeentregaron: the complaint session engine, in Dafny

"No Me Entregaron" is a Telegram bot that helps a patient in Colombia file a
complaint when their EPS (health insurer) did not deliver the medicines on a
prescription. The bot keeps one session record per user. It greets the user,
asks for a photo of the prescription and for consent, and then collects the
undelivered medicines, the city, a phone number, the birth date, the
insurance regime, the address and the pharmacy. When the complaint is
complete it is stored as one row of a table.

This project models that per-user session engine in both revisions of the
repository:

- the monolith, `src/handler.py`;
- the split revision: `src/core/` (session manager, data extractor, prompt
  generator), `src/handlers/` (Telegram and intent handlers) and
  `src/services/` (table, chat and image services), plus `src/processor.py`.

The two revisions differ where it matters, so each file is modelled as
written. This covers the medicine selectors' priority, the duplicate-delivery
windows and the save retry against the schema filter. Code that is the same
in both revisions is defined once, and its row below cites each copy.

Modules, following the source:

- `Sessions`: the session record, as a value (`Record`), and the mutable
  entries of the global `user_sessions` dict (classes `Session` and
  `SessionStore`). `CoreSessions` and `ModelSessions` hold the two session
  managers.
- `Text`, `Search`, `JsonValues`, `Wrappers`, `Steps`: Python's string
  operations, `re.search`'s leftmost match, parsed JSON with Python
  truthiness, Option/Result, and the conversation steps.
- `Dates`, `MedicationSelection`, `Prescription`, `DataExtractor`,
  `ExtractorFacts`: the date normaliser, the two medicine selectors and the
  regular-expression harvest of fields from free text.
- `Questions`, `HandlerSteps`, `HandlerText`, `HandlerTail`,
  `HandlerFormula`, `HandlerPhoto`, `HandlerSave`: the monolith's
  next-question state machine, its text and photo turns (with the
  corrections, the farewell and the completion mark at the end of a text
  turn), and its save with the retry.
- `IntentHandler`, `Cleanup`, `TableSave`, `Warehouse`, `TelegramHandler`,
  `TelegramFacts`: the split revision's turns, completeness check, clean-up
  and save.
- `Prompts`, `ChatService`, `Processor`, `FormulaValidation`: the
  data-dependent parts of the system prompts, the chat history window, and
  the check on the vision model's answer.

Where the source mutates state, the model is imperative. Each such method is
proved equal to a pure function of the old state, and the lemmas about that
function state what the source promises. The chat model, the vision model,
the table client, `json.loads` and the clock are parameters:

- `reply`: the chat model's answer, or None when the call raises;
- `analysis`: the result of reading a photo, or None when it raises;
- `parse`: the decoder's result;
- `script`: the table's next answers;
- `nowMs`, `stamp` and `year`: the clock.

Where the code and the written description of the system disagree, the
model follows the code. For example, a text that arrives while consent is
awaited does not answer the consent question in the split revision. It
raises, because the method it calls does not exist (see Findings).

## Model

| member | source | states |
|---|---|---|
| Sessions.UpdateField | src/core/session_manager.py:124-148 | a blank value or an unknown kind leaves the record as it was; otherwise exactly the field the kind names takes the value, untrimmed, and every other field is kept |
| Sessions.ActualizarDatosContexto | src/models/session_manager.py:110-134 | the session's record becomes `UpdateField` of the old record (the same code as src/core/session_manager.py:124-148 and src/handler.py:227-251) |
| Sessions.SessionStore.Get | src/models/session_manager.py:10-60 | an unseen id gets a fresh session holding the initial record under this id; a known id gets the same session object with only `last_interaction` changed; no other user's session changes and sessions stay distinct |
| CoreSessions.InitialRecord | src/core/session_manager.py:12-43 | a new user's record: not consented, not greeted, first interaction, no history, no earlier complaints, everything collected empty, no `current_step`, a fresh unsaved complaint id `<user>_<seconds>` |
| CoreSessions.GetUserSession | src/core/session_manager.py:9-49 | the store's `get_user_session` with the core revision's initial record |
| CoreSessions.ResetRecord | src/core/session_manager.py:51-88 | user id, name, history, earlier complaints and patient history survive (a missing patient history becomes empty); consent and greeting are set; every collected field and the pending photo are cleared; there is no `current_step`; a fresh unsaved complaint id |
| CoreSessions.ResetSession | src/core/session_manager.py:51-88 | the session's record becomes `ResetRecord` of the old one |
| CoreSessions.ResetIdempotent | src/core/session_manager.py:51-88 | resetting twice at the same instant is resetting once |
| CoreSessions.NewComplaintRecord | src/core/session_manager.py:90-122 | the current complaint is archived exactly when a prescription is loaded and it was not saved; a fresh unsaved complaint id from the given user id; the data fields cleared; every other field, the name included, kept |
| CoreSessions.IniciarNuevaQueja | src/core/session_manager.py:90-122 | the session's record becomes `NewComplaintRecord` of the old one |
| CoreSessions.NewComplaintTwiceArchivesOnce | src/core/session_manager.py:94-97 | a second new complaint right after the first archives nothing more |
| CoreSessions.UpdatesCommute | src/core/session_manager.py:124-148 | writes to two different fields commute |
| CoreSessions.FieldsDetermine | src/core/session_manager.py:124-148 | a record is determined by its seven writable fields and the rest |
| ModelSessions.InitialRecord | src/models/session_manager.py:10-60 | a new user's record in this revision: at INICIO, summary not shown, no collected flags set, not consented, not greeted, a fresh unsaved complaint id |
| ModelSessions.GetUserSession | src/models/session_manager.py:10-60 | the store's `get_user_session` with this revision's initial record |
| ModelSessions.ResetRecord | src/models/session_manager.py:62-108 | the reset keeps the user id, name, history and earlier complaints, goes back to ESPERANDO_FORMULA with no flags and no summary shown, and drops every key it does not list (last photo, last message, patient history) |
| ModelSessions.ResetSession | src/models/session_manager.py:62-108 | the session's record becomes this revision's `ResetRecord` |
| ModelSessions.UpdateKeepsStepAware | src/models/session_manager.py:110-134 | a field write keeps the current step and the keys this revision relies on |
| MedicationSelection.AtNumber | src/core/data_extractor.py:146-148 | a number names a medicine exactly when it lies between 1 and the list's length, and then it names the medicine at that position, counting from 1 |
| MedicationSelection.Picked | src/core/data_extractor.py:144-148 | the medicines the numbers name: never more than the numbers, only prescribed ones, and empty exactly when no number is in range |
| MedicationSelection.SelectByNumbers | src/core/data_extractor.py:142-148 | the loop over the numbers found yields `Picked` |
| MedicationSelection.BaseName | src/core/data_extractor.py:159 | the base name is the longest prefix of the medicine with no "(" and no digit: a prefix, free of both, stopped by one |
| MedicationSelection.Mentions | src/core/data_extractor.py:156-164 | a medicine is in the result exactly when it is prescribed and some word of its base name longer than three characters occurs in the reply |
| MedicationSelection.MentionedWords | src/core/data_extractor.py:160-163 | the loop over the keywords decides `Mentioned` |
| MedicationSelection.SelectByNames | src/core/data_extractor.py:156-164 | the loop over the medicines yields `Mentions` |
| MedicationSelection.Choose | src/core/data_extractor.py:127-168 | the core selector: the idioms, then the in-range numbers, then the mentioned names. `CoreChoiceSound` states that only prescribed medicines are chosen, `CoreChoiceNoneIff` when nothing is, and `CoreIdiomFirst` and `CoreNumbersBeforeNames` the priority |
| MedicationSelection.CoreChoiceSound | src/core/data_extractor.py:127-168 | every medicine the core selector stores is prescribed |
| MedicationSelection.CoreChoiceNoneIff | src/core/data_extractor.py:127-168 | the core selector stores nothing exactly when the reply is not an idiom for "none delivered", names no number in range and mentions no medicine |
| MedicationSelection.MentionsEmptyIff | src/core/data_extractor.py:156-166 | no medicine is mentioned exactly when none satisfies `Mentioned` |
| MedicationSelection.CoreIdiomFirst | src/core/data_extractor.py:131-139 | an idiom stores the whole list, whatever numbers the reply also carries |
| MedicationSelection.CoreNumbersBeforeNames | src/core/data_extractor.py:141-153 | once one number is in range the numbered choice is stored and names are not tried |
| MedicationSelection.ProcesarSeleccionSync | src/core/data_extractor.py:127-168 | the session stores the chosen medicines joined by ", " as the missing medicines, or is left unchanged when nothing is identified |
| MedicationSelection.ProcesarSeleccionMedicamentos | src/core/data_extractor.py:222-287 | success exactly when the session's array is non-empty and the core choice identifies something; on success the choice is stored, on failure nothing changes |
| MedicationSelection.FirstNumber | src/handler.py:294 | the number the monolith reads is one or two digits, and there is none exactly when the reply holds no digit |
| MedicationSelection.FirstNamed | src/handler.py:321-323 | the least index whose medicine's first word occurs in the reply, or none when no first word occurs |
| MedicationSelection.FindFirstNamed | src/handler.py:321-328 | the loop over the medicines returns `FirstNamed` |
| MedicationSelection.FirstNamedIsLeast | src/handler.py:321-323 | a first matching index with no match before it is the one `FirstNamed` returns |
| MedicationSelection.MonolithChoose | src/handler.py:286-333 | the monolith's selector: the first number, then the idioms, then the first named medicine. `MonolithChoiceSound` states that the result is one medicine or the whole list, `MonolithChoiceNoneIff` when there is none, and `MonolithNumberFirst` the priority |
| MedicationSelection.MonolithChoiceSound | src/handler.py:286-333 | the monolith stores one prescribed medicine or the whole list joined, never another subset |
| MedicationSelection.MonolithChoiceNoneIff | src/handler.py:286-333 | the monolith stores nothing exactly when the array is empty or no rule applies: no number in range, no idiom, no first word occurring |
| MedicationSelection.MonolithNumberFirst | src/handler.py:294-303 | a leading number in range wins in the monolith even when the reply also says "todos los" |
| MedicationSelection.ProcesarSeleccionMonolith | src/handler.py:286-333 | success exactly when the monolith's choice identifies something; on success the choice is stored, otherwise nothing changes |
| MedicationExamples.CoreByNumber | src/core/data_extractor.py:141-153 | "el 2" against a two-item list picks the second medicine alone |
| MedicationExamples.PriorityDiffers | src/handler.py:294-319 | on "todos los 2" the core selector stores the whole list while the monolith stores the second medicine |
| MedicationExamples.ShortReplyCore | src/core/data_extractor.py:155-168 | a reply of at most three characters with no digit and no idiom identifies nothing in the core selector |
| MedicationExamples.ShortReplyMonolith | src/handler.py:321-333 | a reply shorter than every first word, with no digit and no idiom, identifies nothing in the monolith |
| MedicationExamples.NothingIdentifiedCore | src/core/data_extractor.py:155-168 | "xyz" against the sample list identifies nothing in the core selector |
| MedicationExamples.NothingIdentifiedMonolith | src/handler.py:321-333 | "xyz" against the sample list identifies nothing in the monolith |
| Prescription.MedNames | src/handler.py:177 | one text per entry of `datos["medicamentos"]`, in list order, and none when the key is missing or not a list |
| Prescription.NumberedFrom | src/handler.py:179 | one line per medicine, in order, line `i` being the number `n + i`, ". " and the name |
| Prescription.JoinThenSplit | src/handler.py:180 | splitting newline-joined lines, none holding a newline, at newlines gives the lines back |
| Prescription.NumberedLines | src/handler.py:179-180 | the numbered medicine text has exactly one line per medicine, line `i` being "i+1. name" |
| Dates.SlashAt | src/core/data_extractor.py:175 | a slash or hyphen match at a position has a one- or two-digit day and month and a four-digit year, starts with a digit and fits inside the text |
| Dates.TextualAt | src/core/data_extractor.py:178 | a "DD de mes" match at a position starts with a digit, has a one- or two-digit day, a non-empty month word and, when present, a four-digit year |
| Dates.InvertedAt | src/core/data_extractor.py:181 | a "mes DD" match at a position starts with a month letter, has a non-empty month word, a one- or two-digit day and, when present, a four-digit year |
| Dates.MonthFrom | src/core/data_extractor.py:194-202 | the month found in a word is one of the twelve month names of the table |
| Dates.FromWordsShape | src/core/data_extractor.py:189-217 | a date rendered from a month word is DD/MM/year, ten characters long when the year was written or the clock's year has four digits |
| Dates.ExtraerFecha | src/core/data_extractor.py:171-219 | the slash form first, then "DD de mes", then "mes DD" with the clock's year. The result's shape is stated by `ExtraerFechaShape`, its fixed points by `NormalisedIsFixedPoint` and `ExtraerFechaIdempotent`, and its agreement with the monolith's copy by `MonolithRefinedByCore` |
| Dates.ExtraerFechaShape | src/core/data_extractor.py:171-219 | every date `extraer_fecha` returns is DD/MM/digits, ten characters long while the clock's year has four digits |
| Dates.ExtraerFechaMonolith | src/handler.py:377-403 | the slash form first, then "DD de mes", and no "mes DD" form. Its shape is stated by `ExtraerFechaMonolithShape`, and `MonolithRefinedByCore` states that the core copy finds every date it finds |
| Dates.ExtraerFechaMonolithShape | src/handler.py:377-403 | the same shape for the monolith's `extraer_fecha` |
| Dates.SlashReadsNormalised | src/core/data_extractor.py:175 | a ten-character normalised date is matched by the slash pattern at position 0 with its own day, month and year |
| Dates.NormalisedIsFixedPoint | src/core/data_extractor.py:183-187 | a normalised date is returned unchanged by both copies of `extraer_fecha` |
| Dates.ExtraerFechaIdempotent | src/core/data_extractor.py:171-219 | normalising the output of `extraer_fecha` again gives it back, while the year has four digits |
| Dates.MonolithRefinedByCore | src/handler.py:377-403 | whenever the monolith's copy finds a date, the core copy finds the same one; the core only adds the "mes DD" form |
| DateExamples.TextualExample | src/core/data_extractor.py:189-202 | "15 de marzo de 2021" normalises to "15/03/2021" in both copies |
| DateExamples.SlashExample | src/core/data_extractor.py:183-187 | "15/03/2021" is returned as it is |
| DateExamples.InvertedExample | src/core/data_extractor.py:204-217 | "marzo 15" becomes "15/03/" and the clock's year in the core copy, while the monolith's copy finds no date |
| Questions.Raise | src/handler.py:346 | raising a field's `data_collected` flag sets that flag and leaves every other flag as it was |
| Questions.FirstUnanswered | src/handler.py:344-372 | the first field, in the order asked, that is empty and was never asked, with every earlier one answered or asked; none when all are |
| Questions.ResumenFinal | src/handler.py:212-225 | the medicines are asked for again, with the step back at ESPERANDO_MEDICAMENTOS, exactly when they are not specified; otherwise the recap of medicines, pharmacy and city, with the record unchanged |
| Questions.NextQuestion | src/handler.py:335-375 | no question and no change exactly when paused at FORMULA_ANALIZADA before the summary; only the step and the flags change, flags only rise; a question sets its field's step; the closing reply is a recap at COMPLETADO |
| Questions.NextAsks | src/handler.py:344-372 | when `Asked[k]` is the first field still to ask, the question is for it, its step is set and its flag raised |
| Questions.GetNextQuestion | src/handler.py:335-375 | the imperative `get_next_question` returns the question and leaves the record `NextQuestion` gives |
| Questions.AskFlagged | src/handler.py:344-375 | the six flagged questions and the closing reply on the session agree with `NextQuestion` |
| Questions.AskLater | src/handler.py:359-375 | the regime, address and pharmacy questions and the closing reply agree with `NextQuestion` |
| Questions.AsksFirstUnanswered | src/handler.py:344-372 | once the medicines are given, the question is for a field exactly when it is the first one still to ask |
| Questions.ClosesWhenAllAsked | src/handler.py:374-375 | once the medicines are given, the closing reply comes exactly when no flagged field is left to ask |
| Questions.MedsAskedAgain | src/handler.py:340-342 | missing medicines are asked for with no flag raised, so the question repeats on every call |
| Questions.AskedOnlyOnce | src/handler.py:344-372 | a field asked once is not asked again by the next call when it stays unanswered |
| Questions.AskTimes | src/handler.py:335-375 | `n` calls of `get_next_question` keep the keys the revision relies on |
| Questions.AsksInOrder | src/handler.py:344-372 | from a blank record the `n`-th call asks for the `n`-th field and raises its flag, nothing else |
| Questions.AsksAfter | src/handler.py:344-372 | with the first `n` flags raised and every field empty, the next call asks for field `n` |
| Questions.CompletesUnanswered | src/handler.py:374-375 | a user who answers nothing still reaches COMPLETADO after the six questions, with a recap naming no pharmacy and no city |
| DataExtractor.Run | src/core/data_extractor.py:51-57 | the longest run of class characters from a position: every character in it is in the class and the one after it is not |
| DataExtractor.LazyEnd | src/core/data_extractor.py:51-56 | the lazy group ends at the first position where an ending follows, every character before it being in the class |
| DataExtractor.GroupAt | src/core/data_extractor.py:51-57 | a captured group has the shape its pattern allows |
| DataExtractor.SepThen | src/core/data_extractor.py:51-57 | backtracking over `[:\s]+` yields only groups of the pattern's shape |
| DataExtractor.KeywordsAt | src/core/data_extractor.py:51-57 | trying the keyword alternatives in order yields only groups of the pattern's shape |
| DataExtractor.PatternAt | src/core/data_extractor.py:51-57 | a match of a labelled pattern at a position has a group of the pattern's shape |
| DataExtractor.Capture | src/core/data_extractor.py:62 | the leftmost match's group 1 has the pattern's shape |
| DataExtractor.Qualified | src/core/data_extractor.py:63-64 | a stored value is the stripped group, longer than two characters and not blank |
| DataExtractor.LabelledStep | src/core/data_extractor.py:61-77 | one pattern writes its own field, and only when its stripped group qualifies; everything else is kept |
| DataExtractor.Labelled | src/core/data_extractor.py:61-77 | the loop over the patterns changes only the seven writable fields |
| DataExtractor.PhoneAt | src/core/data_extractor.py:87 | a standalone phone is exactly ten digits |
| DataExtractor.BareCityStep | src/core/data_extractor.py:80-84 | the bare-city check changes only the writable fields |
| ExtractorFacts.BareCityOnlyAtCityStep | src/core/data_extractor.py:79-84 | the bare-city check writes only at ESPERANDO_CIUDAD with no city yet and a text that is a bare city, and then the city becomes the whole stripped text |
| DataExtractor.PhoneStep | src/core/data_extractor.py:87-89 | the direct phone check changes only the writable fields |
| DataExtractor.DateStep | src/core/data_extractor.py:92-94 | the date check changes only the writable fields |
| DataExtractor.RegimeStep | src/core/data_extractor.py:97-100 | the direct regime check changes only the writable fields |
| DataExtractor.TipoOfWrites | src/core/data_extractor.py:108-124 | each branch of the correction chain passes the kind of the field it is meant to write |
| DataExtractor.Corrected | src/core/data_extractor.py:105-124 | a correction changes at most the field its name routes to |
| ExtractorFacts.CorrectedWritesValue | src/core/data_extractor.py:108-124 | a correction that changes anything names a routed field, and that field then holds what the branch reads from the new value |
| ExtractorFacts.CorrectedDateParses | src/core/data_extractor.py:116-119 | a birth-date correction writes only when the value reads as a date, and writes that date |
| ExtractorFacts.CorrectedRegimeNamed | src/core/data_extractor.py:120-124 | a regime correction writes only when the value names a regime, and writes Contributivo when it names both |
| ExtractorFacts.CorrectedPlainValue | src/core/data_extractor.py:108-115 | the city, cellphone, address and pharmacy corrections write the new value itself |
| DataExtractor.CorrectionStep | src/core/data_extractor.py:103-124 | the correction check changes only the writable fields |
| DataExtractor.Patrones | src/core/data_extractor.py:46-124 | the whole harvest changes only the seven writable fields of the record |
| DataExtractor.HarvestLabelled | src/core/data_extractor.py:61-77 | the imperative loop over `patrones` leaves the record `Labelled` gives |
| DataExtractor.HarvestBareCity | src/core/data_extractor.py:80-84 | the bare-city test raises exactly when the text looks like a bare city and there is no `current_step`; raising it changes nothing |
| DataExtractor.HarvestUnlabelled | src/core/data_extractor.py:86-100 | the direct phone, date and regime checks leave the record their three steps give |
| DataExtractor.HarvestCorrection | src/core/data_extractor.py:102-124 | the correction check on the session agrees with `CorrectionStep` |
| DataExtractor.ApplyCorrection | src/core/data_extractor.py:108-124 | the `if`/`elif` chain on the session agrees with `Corrected` |
| DataExtractor.ExtraerDatosConPatrones | src/core/data_extractor.py:46-124 | the session's record and the raised flag are those of `Patrones` |
| DataExtractor.ExtraerDatosDeRespuesta | src/core/data_extractor.py:13-25 | the session's record and the raised flag are those of `Respuesta`: the completion mark, then the harvest |
| DataExtractor.ExtraerDatosDeMensajeUsuario | src/core/data_extractor.py:28-43 | the session's record and the raised flag are those of `Mensaje`: the medicine choice at ESPERANDO_MEDICAMENTOS, then the harvest |
| ExtractorFacts.PatternFor | src/core/data_extractor.py:50-75 | every writable field has a pattern that writes it |
| ExtractorFacts.PatternWrites | src/core/data_extractor.py:50-75 | the seven patterns write city, cellphone, pharmacy, address, regime, medicines and birth date, in that order |
| ExtractorFacts.WritesOnce | src/core/data_extractor.py:50-75 | no two patterns write the same field |
| ExtractorFacts.LabelledPrefix | src/core/data_extractor.py:61-77 | after a loop over patterns of which only one writes a field, that field holds the pattern's stripped capture when it qualified, and is untouched otherwise |
| ExtractorFacts.LabelledField | src/core/data_extractor.py:61-77 | after the loop every field holds its own pattern's qualified value, or what it held before |
| ExtractorFacts.QualifiedInClass | src/core/data_extractor.py:51-64 | a stored value of a class pattern is made of that class's characters |
| ExtractorFacts.LabelledCityHasNoDigit | src/core/data_extractor.py:51 | the labelled city is the qualified group and holds no digit |
| ExtractorFacts.LabelledRegimeIsAWord | src/core/data_extractor.py:55 | a labelled regime is one of the two regime words, in whatever case the text wrote it |
| ExtractorFacts.LabelledRegime | src/core/data_extractor.py:55-77 | the labelled regime is the regime pattern's qualified value, or what it was |
| ExtractorFacts.QualifiedRegime | src/core/data_extractor.py:55-64 | a qualified regime value lower-cases to "contributivo" or "subsidiado" |
| ExtractorFacts.PatronesRaisesIff | src/core/data_extractor.py:80-83 | the harvest raises exactly when the text looks like a bare city and the record has no `current_step`, keeping what the labelled loop wrote |
| ExtractorFacts.BareCityIsStrippedText | src/core/data_extractor.py:80 | a bare city is the whole stripped text, at least three characters, with no digit |
| ExtractorFacts.PhoneStepStores | src/core/data_extractor.py:87-89 | a standalone ten-digit number becomes the cellphone |
| ExtractorFacts.ContributivoWins | src/core/data_extractor.py:97-100 | a text naming both regimes stores Contributivo |
| ExtractorFacts.VivoGoesToCity | src/core/data_extractor.py:108-113 | a correction naming "vivo" goes to the city; the "vivo" of the address branch is never reached |
| ExtractorFacts.CorrectionWins | src/core/data_extractor.py:103-115 | a correction of the city, cellphone, address or pharmacy is applied last, so its stripped value wins over everything harvested before |
| ExtractorFacts.MensajeWithoutStep | src/core/data_extractor.py:32 | a user message to a record with no `current_step` raises at once and changes nothing |
| ExtractorFacts.MensajeWithStep | src/core/data_extractor.py:28-43 | with a `current_step`, a user message never raises and leaves the step as it was |
| ExtractorFacts.RespuestaCompletes | src/core/data_extractor.py:17-25 | a reply that announces the complaint marks it COMPLETADO and then cannot raise |
| ExtractorFacts.RespuestaRaises | src/core/data_extractor.py:17-25 | a reply to a record with no `current_step` that announces nothing raises exactly when it looks like a bare city |
| HandlerSteps.Advance | src/handler.py:874-877 | the new step is set and a confirmation is appended to the history |
| HandlerSteps.AcceptMeds | src/handler.py:847-866 | the medicines step keeps the complaint, prescription, consent, user and timestamps, and appends exactly one reply |
| HandlerSteps.SelectionMovesOn | src/handler.py:848-861 | a real selection becomes the missing medicines and the conversation leaves ESPERANDO_MEDICAMENTOS |
| HandlerSteps.KnownMedsNotAskedAgain | src/handler.py:852-853 | with the medicines known, the next question never goes back to the medicines step and keeps them |
| HandlerSteps.FailedSelectionAnswersOnly | src/handler.py:862-866 | a failed selection only appends its reply |
| HandlerSteps.AcceptCity | src/handler.py:868-878 | a city is accepted exactly when the whole text is at least three letters or spaces; the stored city is the stripped text and the step becomes ESPERANDO_CELULAR |
| HandlerSteps.BlankCityAdvances | src/handler.py:869-874 | three or more spaces are accepted as a city: the step moves on while the city stays as it was |
| HandlerSteps.CityStored | src/handler.py:869-872 | an accepted non-blank city is stored stripped, and holds only letters and inner spaces, no digit |
| HandlerSteps.PhoneDigits | src/handler.py:890 | removing spaces, brackets and dashes leaves no such character, never lengthens the text and keeps only characters it had |
| HandlerSteps.AcceptPhone | src/handler.py:880-897 | a phone is accepted exactly when the user does not ask why it is wanted and the text is 7 to 15 phone characters; it is stored cleaned and the step becomes ESPERANDO_FECHA_NACIMIENTO |
| HandlerSteps.PhoneStoredClean | src/handler.py:887-891 | an accepted phone is stored as at most fifteen characters, each '+' or a digit |
| HandlerSteps.PhoneDigitsAppend | src/handler.py:890 | a removed character at the end is dropped; this covers the newline that `$` lets through |
| HandlerSteps.AcceptBirthDate | src/handler.py:900-909 | a birth date is accepted exactly when `extraer_fecha` finds one |
| HandlerSteps.BirthDateStored | src/handler.py:901-903 | an accepted birth date is stored as found, in the DD/MM/YYYY form |
| HandlerSteps.RegimeOf | src/handler.py:912-922 | a recognised regime is Contributivo or Subsidiado |
| HandlerSteps.AcceptRegime | src/handler.py:911-929 | a regime is accepted exactly when one is recognised |
| HandlerSteps.RegimeStored | src/handler.py:914-926 | the stored regime is the recognised one, one of the two names |
| HandlerSteps.ContributivoBeforeSubsidiado | src/handler.py:914-922 | a text naming both regimes is Contributivo, because that test comes first |
| HandlerSteps.AcceptAddress | src/handler.py:931-939 | an address is accepted exactly when it has at least five characters and no question mark. The step becomes ESPERANDO_FARMACIA, and a non-blank address is stored verbatim. A blank one stores nothing, because `actualizar_datos_contexto` skips blank values (src/handler.py:229-230) |
| HandlerSteps.BlankAddressAdvances | src/handler.py:931-939 | five or more spaces are accepted as an address: the step moves on to ESPERANDO_FARMACIA while the address stays as it was |
| HandlerSteps.AcceptPharmacy | src/handler.py:941-951 | a pharmacy is accepted exactly when it has at least two characters and no question mark |
| HandlerSteps.PharmacyCompletes | src/handler.py:943-946 | after the pharmacy the step is COMPLETADO when the missing medicines are known, and ESPERANDO_MEDICAMENTOS otherwise; the pharmacy is stored |
| HandlerSteps.StepAccept | src/handler.py:847-951 | whichever step accepts the text, it keeps the complaint, prescription, consent and user and appends exactly one reply |
| HandlerSteps.OneStepForward | src/handler.py:868-939 | the city, phone, birth date, regime and address steps each move exactly one step forward |
| HandlerSteps.QuestionsFallThrough | src/handler.py:868-942 | a text with a question mark is never taken as a city, phone, address or pharmacy |
| HandlerSteps.OtherStepsFallThrough | src/handler.py:847-951 | at INICIO, ESPERANDO_FORMULA, ESPERANDO_CONSENTIMIENTO, FORMULA_ANALIZADA or COMPLETADO the chain accepts nothing |
| HandlerSteps.MedsStep | src/handler.py:847-866 | the session ends as `AcceptMeds` says |
| HandlerSteps.CityStep | src/handler.py:868-878 | the turn is handled exactly when `AcceptCity` accepts, and the session ends as it says; otherwise nothing changes |
| HandlerSteps.PhoneStep | src/handler.py:880-897 | the same, for `AcceptPhone` |
| HandlerSteps.BirthDateStep | src/handler.py:900-909 | the same, for `AcceptBirthDate` |
| HandlerSteps.RegimeStep | src/handler.py:911-929 | the same, for `AcceptRegime` |
| HandlerSteps.AddressStep | src/handler.py:931-939 | the same, for `AcceptAddress` |
| HandlerSteps.PharmacyStep | src/handler.py:941-951 | the same, for `AcceptPharmacy` |
| HandlerText.Arrive | src/handler.py:767-780 | a processed text sets the stamp, the Telegram name (first and last name), the username as cellphone and one user turn, and changes nothing else |
| HandlerText.UsernameAnswersCellphone | src/handler.py:774-775 | a user with a Telegram username always has a cellphone after a text, so `get_next_question` never asks for one |
| HandlerText.FreshComplaint | src/handler.py:803-823 | a new complaint gets the id `<user>_<seconds>`, unsaved, with the prescription, medicines and every collected field cleared; the step, consent, history, earlier complaints and user stay |
| HandlerText.SaveIfPending | src/handler.py:800-801 | the pending save stores a row only for an unsaved complaint with a prescription, stores at most one, and changes nothing but the complaint and the earlier complaints |
| HandlerText.Routed | src/handler.py:784-831 | after the stamp, the reset gives exactly the reset record; every other rule keeps the user, the stamp, the history so far and the earlier complaints |
| HandlerText.StartNew | src/handler.py:797-826 | the new-complaint rule keeps the user, stamp and history and stores what the pending save stores |
| HandlerText.Answered | src/handler.py:828-1029 | the consent, lost-prescription, formula-request, step and tail rules keep the user, stamp, history and earlier complaints, with at most one stored row |
| HandlerText.Chain | src/handler.py:847-951 | the chain takes nothing exactly when no step accepts the text, and then leaves the record and the table as they were |
| HandlerText.Unasked | src/handler.py:847-1029 | the turn ends in a step exactly when one accepts the text; otherwise it ends in the tail |
| HandlerText.Ending | src/handler.py:953-1029 | the tail's ending is the turn's, and the user, stamp, history and earlier complaints are kept |
| HandlerText.UntakenTextEnds | src/handler.py:828-1029 | a text that no earlier rule and no step takes is handled by the corrections, the farewell and the COMPLETADO mark |
| HandlerText.TextTurn | src/handler.py:755-1029 | a text turn keeps the record in this revision's shape |
| HandlerText.CloseTextsDropped | src/handler.py:761-765 | any text less than two seconds after a non-zero stamp is dropped and changes nothing, whatever it says |
| HandlerText.ProcessedTextIsRecorded | src/handler.py:761-780 | a text two seconds or more after the last is not dropped: it is stamped and its user turn is in the history, whichever rule handles it |
| HandlerText.NewComplaintStartsOver | src/handler.py:797-826 | a new-complaint phrase saves the pending complaint, then starts an unsaved complaint at ESPERANDO_FORMULA with no prescription and every personal field unanswered |
| HandlerText.PendingConsentAnswered | src/handler.py:828-831 | while consent is awaited, a text that does not greet first, reset or start a new complaint is the consent answer and nothing else happens |
| HandlerText.PharmacyThenForcedSave | src/handler.py:941-951 | an accepted pharmacy is followed by the forced save of the completed record |
| HandlerText.AcceptStep | src/handler.py:847-951 | the session's step chain is handled exactly when `StepAccept` accepts, ending as it says; otherwise nothing changes |
| HandlerText.StepChain | src/handler.py:847-951 | the session, the table rows and the scripted answers end as `Chain` says; a chain that takes nothing changes neither the session nor the table |
| HandlerText.AnswerText | src/handler.py:828-1029 | the session, rows and answers end as `Answered` says |
| HandlerText.AnswerUnasked | src/handler.py:847-1029 | the session, rows and answers end as `Unasked` says; a text no step takes leaves the chain with nothing changed |
| HandlerText.EndText | src/handler.py:953-1029 | the session, rows and answers end as `Ending` says |
| HandlerText.StartNewComplaint | src/handler.py:798-826 | the session is the fresh complaint at ESPERANDO_FORMULA after the pending save, whose row is the one added |
| HandlerText.SavePending | src/handler.py:800-801 | the session, rows and answers end as `SaveIfPending` says |
| HandlerText.ClearComplaint | src/handler.py:803-823 | the session's record becomes `FreshComplaint` of the old one |
| HandlerText.RouteText | src/handler.py:784-1029 | the session, rows and answers end as `Routed` says |
| HandlerText.ProcessTextMessage | src/handler.py:755-1029 | the session, rows and answers end as `TextTurn` says |
| HandlerText.StampText | src/handler.py:767-780 | the session's record becomes `Arrive` of the old one |
| HandlerTail.CityGroupAt | src/handler.py:954-955 | the city group `\s+([A-Za-zÁáÉéÍíÓóÚúÜüÑñ\s]+)` is a non-empty, maximal run of class characters after at least one space |
| HandlerTail.EquivocadoAt | src/handler.py:954 | a match of the first city regex at a position has a non-empty group after it |
| HandlerTail.NoVivoAt | src/handler.py:955 | a match of the second city regex at a position has a non-empty group after it, the greedy `[^,]+` ending at its last workable place (`Search.Last`) |
| HandlerTail.CambiarAt | src/handler.py:956 | the `cambiar (.*)` group is the rest of the line after "cambiar " |
| HandlerTail.Found | src/handler.py:960 | `search` gives a group inside the text, never empty for the two city regexes |
| HandlerTail.ChangeFrom | src/handler.py:979-1008 | the branch taken is the first of the `if`/`elif` chain whose words occur in `campo_cambio`; none is taken when no branch's words occur |
| HandlerTail.ChangesAskAgain | src/handler.py:979-1008 | each branch goes back to the step at which `get_next_question` asks for the field it clears |
| HandlerTail.ChangesDistinct | src/handler.py:979-1008 | different branches clear different fields |
| HandlerTail.PatronFix | src/handler.py:959-1008 | an entry handles the text only when its regex matches; a city entry gives a new city, `cambiar` a branch of the chain |
| HandlerTail.FirstFix | src/handler.py:959-1008 | the loop's result is that of some entry, and a branch it takes is one of the chain |
| HandlerTail.Tail | src/handler.py:953-1029 | the tail keeps the user, stamp, history so far and earlier complaints, with at most one stored row |
| HandlerTail.ClearedFacts | src/handler.py:979-1008 | a branch empties its own field, changes no other field, and sets the step that asks for that field |
| HandlerTail.RewindClearsOneField | src/handler.py:976-1008 | a `cambiar` rewind empties exactly its field, goes back to the step that asks for it, keeps the history and stores nothing |
| HandlerTail.CityFixedFacts | src/handler.py:962-975 | a city correction writes the city only when the value is not blank, changes no other field, and lets `get_next_question` set only the step and the flags |
| HandlerTail.CityCorrectionFacts | src/handler.py:959-975 | a city correction writes the stripped group of a matching city regex, changes no other field, appends the reply and stores nothing |
| HandlerTail.Closing | src/handler.py:1011-1029 | the tail after no correction: the user and stamp are kept, the history and earlier complaints only grow, and there are at most two inserts and one stored row. `FarewellForcesSave` states the farewell branch, and `ConversedMarksComplete` the COMPLETADO mark |
| HandlerTail.FarewellForcesSave | src/handler.py:1011-1028 | the farewell is only reached with no correction, a closable record and a farewell word; it keeps the step, saves a saved complaint no more, and stores the row of an unsaved one with `force_save` |
| HandlerTail.ConversedMarksComplete | src/handler.py:1011-1029 | otherwise nothing is stored and the step becomes COMPLETADO exactly when the record is closable, with nothing else changed |
| HandlerTail.NoFixIff | src/handler.py:959-1008 | no entry handles the text exactly when each of the three lets it through |
| HandlerTail.EmptyNamesNoBranch | src/handler.py:976-977 | an empty `cambiar` group names no branch |
| HandlerTail.CityEntryFix | src/handler.py:961-962 | a city entry handles the text exactly when its regex matches |
| HandlerTail.CambiarEntryFix | src/handler.py:976-1008 | the `cambiar` entry handles the text exactly when its group names a branch, and clears that branch's field |
| HandlerTail.FirstFixUnrolled | src/handler.py:959-960 | the loop tries the entries in their order and stops at the first that handles the text |
| HandlerTail.FirstFixCases | src/handler.py:953-1008 | a matching city regex wins; failing both, a `cambiar` that names a branch rewinds |
| HandlerTail.TailPaths | src/handler.py:953-1029 | the tail corrects the city exactly when a city regex matches, rewinds exactly when neither does and `cambiar` names a branch (to that branch's field), and says goodbye exactly when nothing was corrected, the record is closable and the text has a farewell word |
| HandlerTail.ShortTextNoFix | src/handler.py:954-956 | a text shorter than eight characters is never a correction |
| HandlerTail.BuenoIsFarewell | src/handler.py:1020 | with no word boundaries, "bueno" counts as a farewell because it contains "no" |
| HandlerTail.BuenoSaysGoodbye | src/handler.py:1011-1028 | "bueno" at a closable record says goodbye, and so saves an unsaved complaint |
| HandlerTail.ChangeWords | src/handler.py:979-1008 | each branch's words are those its `in` tests name |
| HandlerTail.ChangeField | src/handler.py:979-994 | the chain on the session takes the branch `ChangeFrom` names and clears as `Cleared` says, or changes nothing |
| HandlerTail.ChangeLaterField | src/handler.py:995-1008 | the chain's last three branches, likewise |
| HandlerTail.ApplyPatron | src/handler.py:960-1008 | one entry on the session handles the text exactly when `PatronFix` does, ending as `Applied` says |
| HandlerTail.ApplyPatrones | src/handler.py:959-1008 | the loop on the session handles the text exactly when `FirstFix` does, with nothing changed otherwise |
| HandlerTail.CloseTurn | src/handler.py:1011-1029 | the farewell and its forced save, or the COMPLETADO mark, end the session and table as `Closing` says |
| HandlerTail.FinishText | src/handler.py:953-1029 | the session, rows and answers end as `Tail` says |
| HandlerSave.MonolithRow | src/handler.py:424-455 | the row can be built exactly when there is a prescription, its attention date is text or absent, and its medicine list can be joined; it has 18 columns, keyed by the complaint id, with the date as YYYY-MM-DD and the missing medicines |
| HandlerSave.NoSuchFieldAt | src/handler.py:501 | a captured field name is non-empty and holds no dot |
| HandlerSave.FieldNamed | src/handler.py:501-502 | the name of the first "no such field" in a message is non-empty and holds no dot |
| HandlerSave.ProblemFields | src/handler.py:498-503 | at most one field per error message, each non-empty and without a dot |
| HandlerSave.CollectProblemFields | src/handler.py:498-503 | the loop over the error details collects exactly `ProblemFields` |
| HandlerSave.Skip | src/handler.py:475-516 | one insert consumes one scripted answer, two inserts two |
| HandlerSave.MonolithSave | src/handler.py:405-530 | at most two inserts and one stored row; a failure changes nothing; a success marks the complaint saved; a row is stored only for an unsaved complaint; only the complaint and the earlier complaints change |
| HandlerSave.Inserted | src/handler.py:468-526 | a row is stored exactly when the call succeeds, which marks exactly this complaint saved; a failure changes nothing |
| HandlerSave.SaveUserData | src/handler.py:405-530 | the imperative save returns, leaves the session and the table, and consumes the answers as `MonolithSave` says |
| HandlerSave.InsertRow | src/handler.py:468-526 | the insert with its retry ends as `Inserted` says |
| HandlerSave.Retry | src/handler.py:493-526 | the retry succeeds exactly when some field was named and the second insert is stored; it stores the row without those columns, and only when fields were named is a second answer consumed |
| HandlerSave.SaveKeeps | src/handler.py:479-485 | a save keeps the user, history, stamp, step and collected flags, and only appends to the earlier complaints |
| HandlerSave.IncompleteNotSaved | src/handler.py:411-419 | without a prescription and specified missing medicines, an unforced save returns False and touches nothing |
| HandlerSave.SavedIsNotInsertedAgain | src/handler.py:458-460 | an already saved complaint returns True without an insert |
| HandlerSave.NoPrescriptionFails | src/handler.py:425-455 | a save without a prescription raises while building the row and returns False with no insert |
| HandlerSave.FirstTryAppendsSummary | src/handler.py:475-488 | a first-try success stores the row, marks the complaint saved and appends exactly one summary to the earlier complaints |
| HandlerSave.RetryAppendsNothing | src/handler.py:509-520 | a success on the retry stores the row without the named columns and marks the complaint saved, appending no summary |
| HandlerSave.OtherFailuresChangeNothing | src/handler.py:489-491 | a rejected insert returns False, stores nothing and leaves the record as it was |
| HandlerSave.AtMostOneRow | src/handler.py:458-460 | once a call has stored a row, no later call stores another for the same complaint |
| HandlerFormula.ApplyFormula | src/handler.py:168-183 | the prescription dict and its EPS are stored; a non-empty medicine list replaces the selector's context and an empty one keeps it; nothing else changes |
| HandlerFormula.AppliedMedicinesAreSelectable | src/handler.py:177-183 | after a non-empty list is applied, the selector chooses among exactly the prescribed medicines, one per item |
| HandlerFormula.ShowSummary | src/handler.py:205-210 | showing the summary marks it shown, moves to ESPERANDO_MEDICAMENTOS and says the summary, changing nothing else |
| HandlerFormula.Consent | src/handler.py:253-284 | the consent answer. `ConsentAppliesPending`, `ConsentWithoutPending` and `RefusalKeepsConsent` state its three branches, and `ConsentAnswers` states that every answer ends the wait with one reply |
| HandlerFormula.ConsentAppliesPending | src/handler.py:257-269 | a yes with a pending analysis consents, stops waiting, stores that prescription, drops the pending copy and shows the summary; the complaint, medicines, user and city stay |
| HandlerFormula.ConsentWithoutPending | src/handler.py:259-278 | a yes with nothing pending only consents, stops waiting and thanks |
| HandlerFormula.RefusalKeepsConsent | src/handler.py:279-284 | any other answer stops waiting and drops the analysis, keeps the prescription, step and an earlier consent, and says the refusal |
| HandlerFormula.ConsentAnswers | src/handler.py:253-284 | either way the session stops waiting, nothing stays pending and exactly one reply is said |
| HandlerFormula.Affirmative | src/handler.py:257 | the unanchored yes-word search. `SubstringIsAffirmative` and `NoQuisieraConsents` state that a "si" anywhere counts |
| HandlerFormula.SubstringIsAffirmative | src/handler.py:257 | any text containing "si" in any case, even inside a word, counts as a yes |
| HandlerFormula.NoQuisieraConsents | src/handler.py:257 | so "no quisiera" counts as a yes |
| HandlerFormula.ActualizarDatosFormula | src/handler.py:168-183 | the session's record becomes `ApplyFormula` of the old one |
| HandlerFormula.MostrarResumenFormula | src/handler.py:205-210 | the session's record becomes `ShowSummary` of the old one |
| HandlerFormula.ManejarConsentimiento | src/handler.py:253-284 | the session's record becomes `Consent` of the old one |
| HandlerPhoto.PhotoArrive | src/handler.py:633-654 | a processed photo sets the stamp, the photo id, one image turn and the greeting; a user not yet greeted moves to ESPERANDO_CONSENTIMIENTO; nothing else changes |
| HandlerPhoto.Reopened | src/handler.py:656-686 | at COMPLETADO the pending save runs and a fresh complaint follows; at any other step nothing changes |
| HandlerPhoto.Analysed | src/handler.py:688-750 | the analysis paths never drop the photo, and the photo is unreadable exactly when the analysis raised |
| HandlerPhoto.PhotoTurn | src/handler.py:610-754 | a photo turn makes at most two inserts and stores at most one row |
| HandlerPhoto.PhotoDroppedIff | src/handler.py:617-631 | a photo is dropped exactly when it comes within 2.5 seconds of the last stamp, and then nothing changes; the same-photo check within two seconds never drops one more |
| HandlerPhoto.AnalysedKeeps | src/handler.py:688-750 | the analysis keeps the complaint, consent, user and earlier complaints, only adds to the history, and changes the prescription only when it is summarised |
| HandlerPhoto.NoFormulaWithoutConsent | src/handler.py:688-735 | without consent a read photo never becomes the prescription: it is held as pending, consent is asked for and awaited at ESPERANDO_CONSENTIMIENTO |
| HandlerPhoto.ReopenedKeeps | src/handler.py:656-686 | a new complaint for a photo keeps consent, user, history and step, clears the prescription exactly at COMPLETADO, and only appends to the earlier complaints |
| HandlerPhoto.ConsentedPhotoSummarised | src/handler.py:737-745 | a consented photo later in the conversation becomes the prescription, its summary is shown and the medicines are asked for |
| HandlerPhoto.UnreadablePhotoSaysNothing | src/handler.py:707-709 | a photo whose analysis raised adds only the image turn |
| HandlerPhoto.PhotoAfterCompletedStartsNew | src/handler.py:656-666 | a photo after a completed complaint saves it when it is pending and opens a new unsaved complaint `<user>_<seconds>` |
| HandlerPhoto.ProcessPhotoMessage | src/handler.py:610-754 | the session, rows and answers end as `PhotoTurn` says |
| HandlerPhoto.StampPhoto | src/handler.py:633-654 | the session's record becomes `PhotoArrive` of the old one |
| HandlerPhoto.AnalysePhoto | src/handler.py:688-750 | the session's record and the path are those of `Analysed` |
| Warehouse.Table.Insert | src/services/bigquery_service.py:150-152 | one insert consumes one scripted answer; the table gets the row and one more write exactly when the answer says it was stored |
| Warehouse.AttentionDate | src/services/bigquery_service.py:60-66 | a date is produced only from text, and a truthy non-text attention date is the error where `.split` raises |
| Warehouse.IsoDate | src/services/bigquery_service.py:63-66 | the attention date as YYYY-MM-DD. `IsoDateShape` states its ten-character form, and `IsoDateSplits` that splitting it at '-' gives back the parts |
| Warehouse.IsoDateShape | src/services/bigquery_service.py:63-66 | a D/M/YYYY date with one- or two-digit day and month becomes the ten-character YYYY-MM-DD form |
| Warehouse.IsoDateSplits | src/services/bigquery_service.py:66 | the YYYY-MM-DD form splits at '-' back into the year and the zero-padded month and day |
| Warehouse.MedicinesCell | src/services/bigquery_service.py:108 | the medicine column, when it can be built, is never empty |
| Warehouse.Without | src/handler.py:509-511 | deleting the named columns never lengthens the row |
| Warehouse.WithoutKeeps | src/handler.py:509-511 | a column survives exactly when it was in the row and is not named |
| Warehouse.WithoutAbsent | src/handler.py:510 | deleting a column the row does not have changes nothing |
| Warehouse.DropColumns | src/handler.py:509-511 | the deletion loop leaves exactly `Without` of the row |
| Cleanup.LastTe | src/services/bigquery_service.py:78 | the greedy `donde.*te` ends at the last "te": there is one there and none after it |
| Cleanup.MatchLen | src/services/bigquery_service.py:78 | a match of the clean-up pattern at the start has a positive length within the text |
| Cleanup.Scrub | src/services/bigquery_service.py:78 | removing every match never lengthens the text |
| Cleanup.PharmacyChecked | src/handlers/intent_handler.py:134-139 | the completeness check keeps the pharmacy, clears it, or replaces it by its cleaned strip of at least three characters |
| Cleanup.CityChecked | src/handlers/intent_handler.py:130-132 | after the completeness check the city is never a regime word or "ese fue", and is either kept or cleared |
| Cleanup.PharmacyCell | src/services/bigquery_service.py:76-80 | the stored pharmacy is "No disponible" or the cleaned strip, non-empty and not a filler word |
| Cleanup.CityCell | src/services/bigquery_service.py:72-74 | the stored city is the city or "No disponible", the latter exactly when the city was a regime word or "ese fue" |
| Cleanup.DondeNoTeShadowed | src/services/bigquery_service.py:78 | the third alternative never decides a match: wherever "donde no te" starts the first alternative matches at least as far |
| Cleanup.ScrubNoMatch | src/services/bigquery_service.py:78 | a text where the pattern matches nowhere comes back unchanged |
| Cleanup.PharmacyCellMeaningful | src/services/bigquery_service.py:76-80 | the table never gets an empty, blank or "donde" pharmacy |
| Cleanup.PharmacyCheckedStripped | src/handlers/intent_handler.py:136-139 | a pharmacy the check rewrites has no surrounding spaces |
| Cleanup.PharmacyCheckedKeepsClean | src/handlers/intent_handler.py:136-139 | a pharmacy without boilerplate or surrounding spaces passes the check untouched |
| Prompts.PendingList | src/core/prompt_generator.py:141-168 | the pending section. `PendingListOrdered` states its fixed order, and `PendingListMembers` that it lists exactly the missing items |
| Prompts.PendingListOrdered | src/core/prompt_generator.py:141-168 | the pending section lists items in the fixed order of the checks, so none twice |
| Prompts.PendingListMembers | src/core/prompt_generator.py:141-168 | an item is listed as pending exactly when its field is still missing (the medicines also while they hold the placeholder) |
| Prompts.NextRequest | src/services/openai_service.py:208-230 | the next request. `NextRequestIsFirstPending` states that it is the first pending item, or the final summary when nothing is pending |
| Prompts.NextRequestIsFirstPending | src/services/openai_service.py:208-230 | the next request is the first pending item, and the final summary comes exactly when nothing is pending |
| Prompts.NextAction | src/core/prompt_generator.py:170-194 | the next action. `NextActionAfterGreeting` states that it greets first, then follows `NextRequest` |
| Prompts.NextActionAfterGreeting | src/core/prompt_generator.py:170-194 | a user not yet greeted is always greeted first; once greeted, the next action is the first pending item or the final summary, as in the chat service |
| Prompts.Shown | src/core/prompt_generator.py:104-131 | a known line is written exactly when its condition holds, in the written order |
| Prompts.ServiceKnown | src/services/openai_service.py:139-171 | the chat service's known section fails exactly when the name is non-empty but only spaces, where `split()[0]` raises |
| Prompts.ShowsAt | src/core/prompt_generator.py:104-131 | a label with one candidate line is shown exactly when that line's condition holds |
| Prompts.GeneratorKnown | src/core/prompt_generator.py:104-131 | the known section of the prompt generator. `Shown` gives its written order, and `GeneratorKnownComplementsPending` states that it shows a collected item exactly when `PendingList` does not list it |
| Prompts.GeneratorKnownComplementsPending | src/core/prompt_generator.py:104-168 | in the prompt generator a collected item is shown as known exactly when it is not listed as pending |
| Prompts.PlaceholderShownAndPending | src/services/openai_service.py:155-188 | the chat service shows the placeholder "[aún no especificado]" as the missing medicines while listing them as pending; the prompt generator shows no medicines line |
| Prompts.FormulaSection | src/core/prompt_generator.py:198-220 | no prescription gives the fixed "not provided" section; otherwise the patient with its default and one numbered, indented line per prescribed medicine (the same in src/services/openai_service.py:234-256) |
| Prompts.PatientNameAsWritten | src/core/prompt_generator.py:23-28 | as written, a session with no prescription makes the name line raise |
| Prompts.PatientNameOf | src/core/prompt_generator.py:23-28 | the name line is given only for non-blank text, and raises exactly when the patient is truthy and not text or only spaces |
| Prompts.PatientName | src/core/prompt_generator.py:23-28 | the corrected line gives no name without a prescription, and agrees with the code as written otherwise |
| Prompts.GenerateFailsOnNewSession | src/core/prompt_generator.py:23 | every new session, which has no prescription, makes `generate` fail as written (a latent failure: no caller in this revision reaches it) and gives no name line once corrected |
| Prompts.Generate | src/core/prompt_generator.py:10-100 | the prompt lists exactly the pending items, names the next action and holds the prescription section; it fails exactly when the name line does |
| Prompts.ServiceSystemPrompt | src/services/openai_service.py:54-135 | the chat service's prompt fails exactly on a blank non-empty name, and otherwise lists the pending items and the next request |
| FormulaValidation.FirstIndex | src/services/image_processor.py:76 | the position of the first occurrence, or none when the character does not occur |
| FormulaValidation.LastIndex | src/services/image_processor.py:76 | the position of the last occurrence, or none when the character does not occur |
| FormulaValidation.JsonSpan | src/services/image_processor.py:76-78 | the cut-out runs from a "{" to a "}", and there is none exactly when no "}" follows a "{" |
| FormulaValidation.NormaliseMedicines | src/services/image_processor.py:87-91 | only the medicine field changes; it stays present exactly when it was, and becomes a list |
| FormulaValidation.Validate | src/services/image_processor.py:74-98 | an accepted prescription has a usable medicine list: non-empty and not only the "none detected" marker |
| FormulaValidation.SpanIsOuterObject | src/services/image_processor.py:76-80 | the decoder gets exactly the text between the first "{" and the last "}" |
| FormulaValidation.UsableListKept | src/services/image_processor.py:85-98 | a usable list is accepted with every field as the model gave it |
| FormulaValidation.StringMedicineWrapped | src/services/image_processor.py:88-96 | a single medicine given as text is accepted as the one-element list, unless it is the marker itself |
| FormulaValidation.UnusableMedicinesRejected | src/services/image_processor.py:93-96 | a missing or empty medicine field rejects the prescription |
| ChatService.Window | src/services/openai_service.py:22 | the window is the last fifteen turns, or all of them when there are fewer |
| ChatService.AsMessages | src/services/openai_service.py:32-33 | one message per turn, in order |
| ChatService.Ask | src/services/openai_service.py:15-52 | the history is replaced exactly when the prompt can be built and the model answers; the text is the answer, or the apology when anything raises |
| ChatService.HistoryStaysBounded | src/services/openai_service.py:22-46 | after a successful call the history holds at most seventeen turns |
| ChatService.SuccessKeepsRecentTurns | src/services/openai_service.py:22-46 | a successful call keeps the most recent turns in order, then the new message, then the answer |
| ChatService.SentMessages | src/services/openai_service.py:29-38 | the model sees the system prompt first and then exactly the windowed turns and the new message, in order |
| ChatService.AskOpenAI | src/services/openai_service.py:15-52 | the session and the returned text are those of `Ask` |
| Processor.FormatMessages | src/processor.py:105-112 | the system prompt and then every message's role and content, in order |
| Processor.AskOpenAI | src/processor.py:99-124 | the messages sent are the formatted ones; the text is the model's answer, or the apology when the call raises |
| Processor.StepName | src/processor.py:136 | the printed step. `NameHasNoDot`, `StepNameIsMemberName` and `StepNameInjective` state that it is the member name, INICIO when absent, and different for different steps |
| Processor.NameHasNoDot | src/processor.py:136 | a step's enum name holds no dot |
| Processor.StepNameIsMemberName | src/processor.py:136 | the printed step is the enum member's name after the last dot, and an absent step prints as INICIO |
| Processor.StepNameInjective | src/processor.py:136 | different steps print differently |
| IntentHandler.Verify | src/handlers/intent_handler.py:113-159 | the check cleans the city and the pharmacy; the process is completed exactly when it already was or everything is present, and an empty address then gets its default; the step and every other field stay |
| IntentHandler.VerifyFrame | src/handlers/intent_handler.py:129-158 | the check writes only the city, the pharmacy, the address and the completion flag |
| IntentHandler.VerifiedFields | src/handlers/intent_handler.py:130-155 | after the check the city is never a regime word or "ese fue", and a newly completed record has an address |
| IntentHandler.VerifyTwiceSameCompletion | src/handlers/intent_handler.py:113-159 | a second check keeps the city and the completion the first one reached |
| IntentHandler.FormulaUpdate | src/handlers/intent_handler.py:161-182 | the prescription and its EPS are stored, a non-empty text patient becomes the user's name, a non-empty medicine list becomes the selector's array, the numbered text is kept and the step stays |
| IntentHandler.FormulaUpdateFrame | src/handlers/intent_handler.py:161-182 | the update writes only the prescription, the name, the EPS and the selector context |
| IntentHandler.FormulaUpdateAgreesWithMonolith | src/handlers/intent_handler.py:161-182 | the intent handler and src/handler.py:168-183 store the same prescription, EPS and medicine array; only the intent handler renames the user |
| IntentHandler.WithUserTurn | src/handlers/intent_handler.py:20 | recording the user's message appends exactly one user turn |
| IntentHandler.MensajeOutcome | src/handlers/intent_handler.py:23 | the user's text is harvested only when a step is set, raising otherwise with nothing changed; the step is kept |
| IntentHandler.RespuestaOutcome | src/handlers/intent_handler.py:39 | with a step set the model's reply is harvested without raising, and a step stays set |
| IntentHandler.ConverseFacts | src/handlers/intent_handler.py:85-89 | with a step set, appending the text, asking the model and harvesting the answer never raises; the answer is the model's or the apology |
| IntentHandler.ConsentReply | src/handlers/intent_handler.py:44-71 | the consent path. `ConsentReplyFacts` and `ConsentQuestionAnswered` state that it ends the wait, drops the pending copy, and consents and stores the prescription only on a yes with one pending |
| IntentHandler.ConsentReplyFacts | src/handlers/intent_handler.py:44-71 | the consent answer ends the wait and drops the pending copy; a yes with a pending prescription consents and stores it, anything else keeps consent and prescription |
| IntentHandler.Finish | src/handlers/intent_handler.py:92-105 | after the general path the first interaction is over (and a first one greets), a reply announcing the filing completes the process, a completed process stays so, and consent, wait and step stay |
| IntentHandler.LostReply | src/handlers/intent_handler.py:29-41 | the lost-prescription path. `LostFacts` states that it never raises with a step set and answers the model's reply or the apology |
| IntentHandler.LostFacts | src/handlers/intent_handler.py:29-41 | the lost-prescription path never raises with a step set, answers the model's reply or the apology, and keeps a completed process completed |
| IntentHandler.GeneralReply | src/handlers/intent_handler.py:73-107 | the general path. `GeneralFacts`, `GeneralTurnFinishes` and `FarewellCompletes` state its outcomes |
| IntentHandler.GeneralFacts | src/handlers/intent_handler.py:73-107 | the same for the general path |
| IntentHandler.PathOf | src/handlers/intent_handler.py:28-73 | the choice of path: lost prescription first, then a consent answer, else general. `ProcesarTakesPath`, `PlainYesConsents` and `ConsentPathFacts` state which path a turn takes |
| IntentHandler.PathFacts | src/handlers/intent_handler.py:28-107 | the same for whichever of the three paths a turn takes |
| IntentHandler.Procesar | src/handlers/intent_handler.py:14-111 | `procesar_mensaje`. `ProcesarFailsIffNoStep` states that it raises exactly when no step is set, `ProcesarAnswer` which answers it gives, and `CompletionNeverCleared` that completion is kept |
| IntentHandler.ProcesarFailsIffNoStep | src/handlers/intent_handler.py:14-111 | a turn raises exactly when no step is set, and then answers the generic error and changes nothing |
| IntentHandler.ProcesarAnswer | src/handlers/intent_handler.py:14-111 | the answer is the generic error, the model's reply or the chat service's apology |
| IntentHandler.CompletionNeverCleared | src/handlers/intent_handler.py:14-111 | a completed process stays completed through any turn |
| IntentHandler.PlainYesConsents | src/handlers/intent_handler.py:48-50 | a yes with nothing pending falls through to the general path and keeps the consent it recorded |
| IntentHandler.ConsentPathFacts | src/handlers/intent_handler.py:48-71 | a yes with a pending prescription, or a refusal, takes the consent path with its outcomes |
| IntentHandler.ProcesarTakesPath | src/handlers/intent_handler.py:23-26 | with a step set, harvesting and checking keep the other fields and the step, and the turn is the path the prepared record takes |
| IntentHandler.ConsentQuestionAnswered | src/handlers/intent_handler.py:44-71 | the answer to the consent question always ends the wait; only a yes consents and stores a pending prescription; any other answer keeps the consent and drops the pending prescription |
| IntentHandler.FarewellCompletes | src/handlers/intent_handler.py:74-81 | a closing word completes the process once prescription, medicines, city and phone are known |
| IntentHandler.GeneralTurnFinishes | src/handlers/intent_handler.py:85-105 | a general turn ends the first interaction, and a reply announcing the filing completes the process |
| IntentHandler.VerificarInformacionCompleta | src/handlers/intent_handler.py:113-159 | the session's record becomes `Verify` of the old one |
| IntentHandler.CleanCity | src/handlers/intent_handler.py:130-132 | only the city changes, to its checked value |
| IntentHandler.CleanPharmacy | src/handlers/intent_handler.py:134-139 | only the pharmacy changes, to its checked value |
| IntentHandler.MarkComplete | src/handlers/intent_handler.py:141-158 | a complete record is marked completed, with the address default; an incomplete one is left alone |
| IntentHandler.ActualizarDatosFormula | src/handlers/intent_handler.py:161-182 | the session's record becomes `FormulaUpdate` of the old one |
| IntentHandler.ConverseTurn | src/handlers/intent_handler.py:85-89 | the session and answer are those of `Converse` |
| IntentHandler.ConsentTurn | src/handlers/intent_handler.py:44-71 | the session and answer are those of `ConsentReply` |
| IntentHandler.ClosingCheck | src/handlers/intent_handler.py:74-82 | the session's record becomes `Closing` of the old one |
| IntentHandler.FinishTurn | src/handlers/intent_handler.py:92-105 | the session's record becomes `Finish` of the old one |
| IntentHandler.GeneralTurn | src/handlers/intent_handler.py:73-107 | the session and answer are those of `GeneralReply` |
| IntentHandler.LostTurn | src/handlers/intent_handler.py:29-41 | the session and answer are those of `LostReply` |
| IntentHandler.PathTurn | src/handlers/intent_handler.py:28-107 | the session and answer are those of `PathReply` |
| IntentHandler.AcceptTurn | src/handlers/intent_handler.py:48-50 | the session's record becomes `Accepted` of the old one |
| IntentHandler.ProcesarMensaje | src/handlers/intent_handler.py:14-111 | the session and answer are those of `Procesar` |
| IntentHandler.HistoryQuery | src/handlers/intent_handler.py:238-248 | the history request. `HistoryQueryFacts` states that it changes only the history, and that the answer is the model's or the apology |
| IntentHandler.HistoryQueryFacts | src/handlers/intent_handler.py:238-248 | the history request changes only the history, which ends with the request, or with the request and the model's answer; the answer is the model's or the apology |
| IntentHandler.ConsultarHistorialPaciente | src/handlers/intent_handler.py:238-248 | the session and answer are those of `HistoryQuery` |
| TableSave.Cells | src/services/bigquery_service.py:98-118 | one value per column of the row dict |
| TableSave.ServiceRow | src/services/bigquery_service.py:98-118 | the row dict names its columns in the written order, one value each |
| TableSave.Restrict | src/services/bigquery_service.py:129-133 | the schema filter never lengthens the row |
| TableSave.Placeholder | src/services/bigquery_service.py:141-143 | the last check on one column. `PlaceholderFacts` states that it keeps the name, leaves meaningful values alone and leaves no blank or filler string |
| TableSave.FillPlaceholders | src/services/bigquery_service.py:141-143 | the last check replaces each column by its placeholder form, keeping the order |
| TableSave.Cleaned | src/services/bigquery_service.py:141-143 | the row that reaches the insert is the placeholder form of each filtered column |
| TableSave.WithComplaintId | src/services/bigquery_service.py:85-90 | a complaint without an id gets a fresh unsaved one `<user>_<seconds>`; one with an id is untouched |
| TableSave.PatientComplaintAppended | src/services/bigquery_service.py:168-187 | the patient's complaints end with the new one, after the earlier ones or, for a new patient, alone under the patient's name; other patients are untouched |
| TableSave.Recorded | src/services/bigquery_service.py:152-165 | a stored row marks the complaint saved and appends one summary to the earlier complaints, keeping the prescription |
| TableSave.ServiceSave | src/services/bigquery_service.py:45-205 | the table save. `IncompleteNotSaved`, `NoPrescriptionFails` and `FailureKeepsSaved` state its failures, `StoredRecords` and `StoredRowFacts` its stored row, `SaveBounds` its single insert, `SaveKeeps` its frame and `AtMostOneRow` that a complaint is stored once |
| TableSave.SaveUserData | src/services/bigquery_service.py:45-205 | the imperative save returns, leaves the session and the table, and consumes the answers as `ServiceSave` says |
| TableSave.Submit | src/services/bigquery_service.py:92-200 | the save from the saved check on. `SavedIsNotInsertedAgain` states that a saved complaint is not inserted again, and `SubmitKeeps` gives its frame |
| TableSave.SubmitComplaint | src/services/bigquery_service.py:92-200 | from the saved check on, the session and the table end as `Submit` says |
| TableSave.RecordSaved | src/services/bigquery_service.py:152-189 | the session's record becomes `Recorded` of the old one |
| TableSave.AddPatientComplaint | src/services/bigquery_service.py:170-187 | the patient-history update gives `WithPatientComplaint` |
| TableSave.RestrictKeeps | src/services/bigquery_service.py:133 | a column survives the schema filter exactly when the row had it and the table has its name |
| TableSave.PlaceholderFacts | src/services/bigquery_service.py:141-143 | the last check keeps the column name, leaves meaningful values alone and leaves no blank or filler string |
| TableSave.CleanedRestrictFacts | src/services/bigquery_service.py:129-143 | the filtered, cleaned row has only table columns the row dict had, and no blank or filler string |
| TableSave.InsertedRowFacts | src/services/bigquery_service.py:98-150 | the inserted row holds only columns of the row dict that the table has, and no blank or filler string |
| TableSave.StoredRowFacts | src/services/bigquery_service.py:45-205 | every row a save stores has only known table columns and no blank or filler string |
| TableSave.SaveBounds | src/services/bigquery_service.py:122-200 | at most one insert per call, with no retry; a row is stored exactly when the call succeeds with an insert |
| TableSave.IncompleteNotSaved | src/services/bigquery_service.py:48-56 | incomplete data without `force_save` returns False and changes nothing |
| TableSave.NoPrescriptionFails | src/services/bigquery_service.py:60-66 | a forced save without a prescription dict fails and inserts nothing |
| TableSave.SavedIsNotInsertedAgain | src/services/bigquery_service.py:92-95 | an already saved complaint returns True without an insert once the earlier checks pass, and False before them |
| TableSave.FailureKeepsSaved | src/services/bigquery_service.py:45-205 | a failed save stores nothing and changes at most the fresh id it gave the complaint |
| TableSave.StoredRecords | src/services/bigquery_service.py:152-189 | a stored row marks the complaint saved under its id, appends exactly one summary, and with a document number ends that patient's complaints with this one |
| TableSave.SaveKeeps | src/services/bigquery_service.py:45-205 | a save changes only the complaint, the earlier complaints (by appending) and the patient history |
| TableSave.SubmitKeeps | src/services/bigquery_service.py:92-200 | the same, from the saved check on |
| TableSave.RecordedFrame | src/services/bigquery_service.py:152-189 | recording a row changes only the complaint, the earlier complaints and the patient history |
| TableSave.AtMostOneRow | src/services/bigquery_service.py:92-95 | once a call has stored a row, no later call stores another for the same complaint |
| TelegramHandler.ProcessTextMessage | src/handlers/telegram_handler.py:189-289 | a text turn leaves the session, the stored rows and the table's remaining answers as the text-turn rules say, and keeps the schema and the session id |
| TelegramHandler.RouteText | src/handlers/telegram_handler.py:210-238 | the greeting and reset rules end the turn in the state and reply the routing rules give |
| TelegramHandler.RouteGreeted | src/handlers/telegram_handler.py:220-238 | once the user has been greeted, the reset rule or else the later rules end the turn in the state and reply the routing rules give |
| TelegramHandler.ContinueText | src/handlers/telegram_handler.py:227-289 | the new-complaint rule, or else the later rules, end the turn in the state they give |
| TelegramHandler.ReopenComplaint | src/handlers/telegram_handler.py:229-235 | the pending save and then the new complaint leave the session and the stored rows the reopening rule gives |
| TelegramHandler.AnswerText | src/handlers/telegram_handler.py:240-289 | the rules after the new-complaint test end the turn in the state and reply they give |
| TelegramHandler.AnswerReady | src/handlers/telegram_handler.py:246-289 | when the record is not waiting for consent, the lost-prescription, history and later rules end the turn in the state and reply they give |
| TelegramHandler.ReportHistory | src/handlers/telegram_handler.py:253-262 | the history answer is the reply, recorded as an assistant turn |
| TelegramHandler.AnswerPlain | src/handlers/telegram_handler.py:264-289 | the prescription request, or else the conversation, end the turn in the state they give |
| TelegramHandler.Converse | src/handlers/telegram_handler.py:274-283 | the conversational reply followed by the save at COMPLETADO leaves the state and rows the conversation rule gives |
| TelegramHandler.SaveOnCompletion | src/handlers/telegram_handler.py:278-283 | the save at COMPLETADO as written leaves the session and rows the completion-save rule gives |
| TelegramHandler.ProcessPhotoMessage | src/handlers/telegram_handler.py:104-187 | a photo turn leaves the session, rows and remaining answers as the photo-turn rules say |
| TelegramHandler.ReadPhoto | src/handlers/telegram_handler.py:151-183 | the new complaint at COMPLETADO, the consent wait and the analysis leave the state the photo-reading rule gives |
| TelegramHandler.DuplicateText | src/handlers/telegram_handler.py:196-201 | the text dedupe. `TelegramFacts.TextDroppedIff` states that a text is dropped exactly when it repeats the last message within half a second |
| TelegramHandler.TextTurn | src/handlers/telegram_handler.py:189-289 | a text turn. `TelegramFacts.TextDroppedIff`, `StampedFacts`, `NewComplaintOpens`, `AwaitingTextRaises`, `SavedWithoutRow` and `StrandedText` state its rules |
| TelegramFacts.TextDroppedIff | src/handlers/telegram_handler.py:196-201 | a text is dropped exactly when it repeats the last message within half a second, and a dropped text changes nothing |
| TelegramFacts.StampedFacts | src/handlers/telegram_handler.py:203-208 | the time, the message and the username are written, and nothing else changes, before any rule runs |
| TelegramFacts.SaveIfPendingKeeps | src/handlers/telegram_handler.py:230-232 | the save before a new complaint keeps every field but the complaint, and stores a row only for a loaded, unsaved prescription |
| TelegramFacts.ReopenedFacts | src/core/session_manager.py:90-122 | a new complaint has a fresh unsaved id and cleared data fields, and keeps the step, the consent wait and the stamps |
| TelegramFacts.NewComplaintOpens | src/handlers/telegram_handler.py:228-238 | a new-complaint phrase from a greeted user is the reopening rule on the stamped record, with no reply of its own |
| TelegramHandler.DuplicatePhoto | src/handlers/telegram_handler.py:112-125 | the photo dedupe. `TelegramFacts.PhotoDroppedIff` states that a photo is dropped exactly when it comes within 2.5 s of the last stamp or repeats the last photo id |
| TelegramHandler.PhotoTurn | src/handlers/telegram_handler.py:104-187 | a photo turn. `TelegramFacts.PhotoDroppedIff`, `PhotoGreetsFirst`, `PhotoAwaitsConsent`, `PhotoAfterCompletion` and `StrandedPhoto` state its rules |
| TelegramFacts.PhotoDroppedIff | src/handlers/telegram_handler.py:112-149 | a photo is dropped exactly when it comes within 2.5 s of the last one or repeats its id; an accepted one is recorded and greets the user |
| TelegramFacts.PhotoGreetsFirst | src/handlers/telegram_handler.py:125-141 | a photo from a user never greeted gets the welcome before the image turn |
| TelegramFacts.PhotoAwaitsConsent | src/handlers/telegram_handler.py:163-183 | a read or unreadable photo leaves the session waiting for consent; a read one becomes the pending photo |
| TelegramFacts.PhotoAfterCompletion | src/handlers/telegram_handler.py:152-160 | a photo at COMPLETADO saves the finished complaint if unsaved, then opens a new one waiting for its prescription |
| TelegramFacts.ResetStrands | src/core/session_manager.py:51-88 | the reset record as written has no step, so the session is stranded until `/start` |
| TelegramHandler.Started | src/handlers/telegram_handler.py:76-83 | `/start` marks the user greeted and sets ESPERANDO_FORMULA, and changes nothing else |
| TelegramHandler.StartCommand | src/handlers/telegram_handler.py:76-83 | the session's record becomes `Started` of the old one |
| TelegramFacts.StartRecovers | src/handlers/telegram_handler.py:76-83 | `/start` takes a stranded session back to waiting for the prescription |
| TelegramFacts.StrandedText | src/handlers/telegram_handler.py:189-289 | from a stranded session every text is dropped, resets, reopens, reports a lost prescription or raises, and the session stays stranded |
| TelegramFacts.StrandedPhoto | src/handlers/telegram_handler.py:152-187 | from a stranded session every photo is dropped or fails, and the session stays stranded |
| TelegramFacts.ResetRecordCorrected | src/models/session_manager.py:62-108 | the corrected reset equals the one as written except that the step is back at waiting for the prescription |
| TelegramFacts.CorrectedResetAcceptsPhoto | src/handlers/telegram_handler.py:163-183 | after the corrected reset the next accepted photo is read and waits for consent |
| TelegramFacts.AwaitingTextRaises | src/handlers/telegram_handler.py:241-244 | as written, a text while a consent is awaited raises: only the fixed error message is sent, and the wait stays |
| TelegramFacts.AnsweredCorrected | src/handlers/telegram_handler.py:241-244 | with the correction, a turn with no consent awaited is handled exactly as written |
| TelegramFacts.CorrectedConsentAnswered | src/handlers/telegram_handler.py:241-244 | with the correction, a consent answer gets a reply, ends the wait, and an affirmative one records the consent |
| TelegramFacts.CompletionSaveKeeps | src/handlers/telegram_handler.py:279-283 | the save at COMPLETADO keeps the consent and the consent wait |
| TelegramFacts.SavedWithoutRow | src/handlers/telegram_handler.py:279-283 | as written, a failed save at COMPLETADO still marks the complaint saved, so it is never stored |
| TelegramFacts.CompletionSaveHonest | src/handlers/telegram_handler.py:279-283 | the corrected save marks the complaint saved exactly when it was saved before or a row is stored now |

## Left out

- Telegram transport is not modelled: bot set-up, the `/help` command, photo download, `reply_text`, Markdown formatting and the wording of fixed replies. A fixed reply is a tag or a path.
- `asyncio.sleep` and the async structure are not modelled. Turns of one user are sequential, so the model has no concurrency.
- Logging and tracebacks are not modelled.
- The chat model, the vision model, the table client and `json.loads` are oracle parameters (`reply`, `analysis`, `script`, `parse`). `time.time`, `time.strftime` and `time.localtime` become `nowMs`, `stamp` and `year`.
- The table client's `get_table` failure and credential and connection checks are not modelled. A failed insert is one answer of the script.
- The fixed instruction text of the prompts is product wording and is not modelled. Only the data-dependent sections are.
- `src/main.py` and the configuration values in `src/config.py` are not modelled. Only the `ConversationSteps` enum is, as `Steps.Step`.
- `IntentHandler.manejar_imagen_formula` (src/handlers/intent_handler.py:184-237) is not modelled. No code path calls it: the Telegram handler reads photos itself.
- The monolith's chat reply, with its harvest and its save trigger (src/handler.py:1031-1048), is not modelled: it calls the chat model through `processor.py`. The model stops such a text at path `Ended(Conversed)`, after the corrections, the farewell and the COMPLETADO mark, which are modelled. The replies of the corrections and the farewell are the tags `CityUpdate` and `FarewellMessage`; the `cambiar` replies are not recorded, as the source does not add them to the history. The split revision's conversational reply is modelled, in `IntentHandler`.
- In `reset_command`, the `last_interaction` update made by `get_user_session` is not modelled separately. The reset record that follows overwrites it.
- TelegramHandler.Started: the `last_interaction` update made by `get_user_session` in `start_command` is not modelled. `Started` changes only the greeting flag and the step.
- Lower-casing is Python's `lower()` on ASCII and the Spanish accented letters only. The exotic `re.I` case folds, such as the Kelvin sign and the long s, are not modelled.
- `\d` and `\w` are not modelled over all Unicode digits and letters. They match ASCII digits and the Spanish letters only.
- A prescription whose medicine list holds non-string entries is not modelled. Only string entries are kept as medicine names.
- A non-string document number as the key of the patients' history is not modelled. The key is text.
- IntentHandler.FormulaUpdate: a truthy `paciente` that is not text, such as a number or a list, is not stored as the name. The model's name is text, so it keeps the old name and `ServiceSystemPrompt` builds as usual. In src/handlers/intent_handler.py:167-168 such a value is stored as `name`. From then on, `split()` at src/services/openai_service.py:144 raises, and every chat turn gets the apology.
- TelegramFacts.AwaitingTextRaises: the error reply that the handler sends after catching the exception (src/handlers/telegram_handler.py:285-289) is not part of `answer`. The path `Raised` stands for it.

## Findings

| source | as written | input that shows it | evidently intended | confidence | as-written member | corrected member |
|---|---|---|---|---|---|---|
| src/core/session_manager.py:51-88 | the reset record that `/reset` installs (src/handlers/telegram_handler.py:96-103) has no `current_step` key, so no photo or plain text gets the session going again until the user sends `/start` (src/handlers/telegram_handler.py:76-83), which sets ESPERANDO_FORMULA again (TelegramFacts.StartRecovers) | `/reset`, then any photo (the KeyError at line 152 is caught at 185-187) or any plain text (KeyError at 267 and 279) | the reset returns to waiting for the prescription, as src/models/session_manager.py:62-108 does | not executed | TelegramFacts.StrandedText | TelegramFacts.CorrectedResetAcceptsPhoto |
| src/handlers/telegram_handler.py:241-244 | text while `awaiting_approval` calls `intent_handler.manejar_consentimiento`, which `IntentHandler` does not define; the AttributeError ends in the error reply | a photo is read, then the user writes "sí" | the consent answer is handled, as `procesar_mensaje` does (src/handlers/intent_handler.py:44-71) | not executed | TelegramFacts.AwaitingTextRaises | TelegramFacts.CorrectedConsentAnswered |
| src/handlers/telegram_handler.py:279-283 | after the save at COMPLETADO, `guardada` is set True whatever the save returned | a completed complaint whose insert fails | `guardada` is True only after a stored row | not executed | TelegramFacts.SavedWithoutRow | TelegramFacts.CompletionSaveHonest |
| src/core/prompt_generator.py:23 | `.get("formula_data", {})` returns the stored None, and `.get` on None raises. The failure is latent: src/handlers/telegram_handler.py:20 imports this class but never calls `generate`, and src/handler.py:1031 uses the class of src/processor.py | any new session, where `formula_data` is None | no patient-name line without a prescription | not executed | Prompts.GenerateFailsOnNewSession | Prompts.PatientName |
