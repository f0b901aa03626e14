# VPN Manager for OpenVPN: profile generation, profile update and profile import

This project models the part of the Kodi add-on "VPN Manager for OpenVPN"
that produces the OpenVPN profiles (`.ovpn` files) the add-on connects with.
It covers three paths:

- **generateOVPNFiles** (`libs/vpnproviders.py`). Some providers ship a
  `TEMPLATE.txt` and a `LOCATIONS.txt`. Each location line
  `geo,servers,proto,ports[,modifiers]` becomes one profile: the template
  with its `#TAG`s filled in and its `remote ` line fanned out, one copy per
  server. A `TRANSLATE.txt` line maps each profile to its servers.
- **updateVPNFiles** (`libs/vpnproviders.py`). Other providers ship
  ready-made profiles. Each one is rewritten line by line: the password-file
  path, the port override, the user key and certificate paths, `#PATH` and
  the log verbosity. Lines the settings ask for and the profile lacks are
  appended. `TRANSLATE.txt` again gets one line per profile.
- **The import wizard** (`import.py`). The user picks `.ovpn` files and other
  files for the "User Defined" provider. Each profile line that names one of
  the other files becomes a `#PATH` reference to it. Password, key and
  certificate tags are counted over the batch. That decides two settings and
  the warnings of the import summary. Each profile may be renamed after its
  protocol.

Around these sit the provider tables and lookups, the key-mode predicates,
the key and certificate file names, and the extraction of embedded
`<key>`/`<cert>` blocks from a profile (`copyKeyAndCert`).

Strings are `seq<char>` with the semantics of Python 2 byte strings:

- `split()` splits on ASCII whitespace;
- `strip(' \t\n\r')` strips those four characters;
- `replace` is left to right and non-overlapping;
- `lower`/`upper` are ASCII only.

The add-on's settings and the platform helpers (path wrappers, `getUpParam`,
`getDownParam`, the platform test) are passed in as values (`Config.Settings`
and `Config.Host`). Reading a file is a parameter, and a written file is the
sequence of its `write` calls. Each file-processing loop of the source is a
method proved equal to a fold over its input, and the properties are proved
about those folds. The provider table lookups (getVPNLocation,
getVPNDisplay) and the import's usage report are recursive functions.

Two behaviours of the code worth noting:

- updateVPNFiles sets the profile's protocol only when a `remote ` line runs
  the protocol rescan (libs/vpnproviders.py:658-671).
- updateVPNFiles rewrites `auth-user-pass` lines for every provider that is
  not "User Defined", including those listed in `providers_no_pass`
  (libs/vpnproviders.py:652-654).
- The import wizard computes the separator replacement meant to let a
  qualified file name resolve, then discards it (import.py:194-195). So a
  profile line naming a file by a qualified path is never resolved
  (ImportFacts.QualifiedNeverNames). The model follows the code.

## Model

| member | source | states |
|---|---|---|
| Config.VerbValue | libs/vpnproviders.py:398-402 | the verbosity written into `verb` lines is the setting when non-empty, and never empty |
| Providers.ConstantTablesDistinct | libs/vpnproviders.py:33-38 | both tables hold 33 names, and no two positions share a display or directory name in either table |
| Providers.DirsNonEmpty | libs/vpnproviders.py:38 | every directory name is non-empty, so "" can signal "not found" |
| Providers.LocationFrom | libs/vpnproviders.py:83-88 | the loop from position i returns "" or the directory at a position whose display or directory name equals the input; "" exactly when none from i matches |
| Providers.GetVPNLocation | libs/vpnproviders.py:81-88 | "" exactly when the input is neither a display name nor a directory name; otherwise a directory name |
| Providers.DisplayFrom | libs/vpnproviders.py:93-97 | the loop from position i returns the input unchanged when no directory name matches, else the display name at a matching position |
| Providers.GetVPNDisplay | libs/vpnproviders.py:91-97 | non-directory names come back unchanged; directory names map to a display name |
| Providers.LocationFromDisplayAt | libs/vpnproviders.py:84-85 | with distinct tables, the j-th display name is mapped to the j-th directory |
| Providers.LocationFromDirAt | libs/vpnproviders.py:84-86 | with distinct tables, the j-th directory name is mapped to itself |
| Providers.DisplayFromAt | libs/vpnproviders.py:94-95 | with distinct tables, the j-th directory name is mapped to the j-th display name |
| Providers.LocationDisplayRoundTrip | libs/vpnproviders.py:81-97 | getVPNLocation maps the j-th display name and the j-th directory to the j-th directory, and getVPNDisplay inverts it both ways |
| Providers.KeyModesExclusive | libs/vpnproviders.py:114-131 | no provider uses single and multiple keys at once, under any user_def_keys value |
| Providers.NoPasswordMeansKeys | libs/vpnproviders.py:268-274 | every built-in provider that skips password authentication uses user keys |
| Providers.KeyAndCertNames | libs/vpnproviders.py:250-265 | key and cert names are "" exactly without user keys; otherwise one stem plus ".key"/".crt", "user" for single-key providers, "user_" plus the name with spaces made underscores for multiple-key providers, character by character |
| KeyCert.StripAll | libs/vpnproviders.py:208 | stripping keeps one line per line |
| KeyCert.ExtractKeyAndCert | libs/vpnproviders.py:203-229 | the key and cert files get what the extraction fold writes; success exactly when both are non-empty |
| KeyCert.RunAppend | libs/vpnproviders.py:207-219 | the extraction over a + b is the extraction over b from the state after a |
| KeyCert.RunPlain | libs/vpnproviders.py:213-219 | lines that are not tag lines go, stripped, to each open block and nowhere else; open/closed states stay |
| KeyCert.StepKeepsKeyClosed | libs/vpnproviders.py:209-216 | without `<key>` a closed key block stays closed and the key file unchanged |
| KeyCert.StepKeepsCertClosed | libs/vpnproviders.py:211-219 | without `<cert>` a closed cert block stays closed and the cert file unchanged |
| KeyCert.RunNoKeyOpen | libs/vpnproviders.py:209-216 | lines without `<key>` leave a closed key block closed and the key file unchanged |
| KeyCert.RunNoCertOpen | libs/vpnproviders.py:211-219 | lines without `<cert>` leave a closed cert block closed and the cert file unchanged |
| KeyCert.KeyBlockExtracted | libs/vpnproviders.py:207-216 | a profile with one `<key>` ... `</key>` block yields exactly that block's lines, stripped, as the key file |
| KeyCert.CertBlockExtracted | libs/vpnproviders.py:207-219 | a profile with one `<cert>` ... `</cert>` block yields exactly that block's lines, stripped, as the cert file |
| Modifiers.ApplyModifier | libs/vpnproviders.py:492-504 | one modifier raises exactly when its name mentions a tag and it has no '=' |
| Modifiers.ApplyModifierGet | libs/vpnproviders.py:494-504 | after one modifier, each tag's value is the modifier's value when its name mentions the tag, and unchanged otherwise |
| Modifiers.ParseModifiers | libs/vpnproviders.py:490-504 | the modifier loop succeeds exactly when the fold does, with the fold's values |
| Modifiers.FailureStays | libs/vpnproviders.py:492-512 | once a modifier raises, the whole list fails |
| Modifiers.LastModifierWins | libs/vpnproviders.py:492-504 | each tag ends with the value of the last modifier that mentions it, or its default |
| Modifiers.ModifiersFail | libs/vpnproviders.py:492-504 | the list fails exactly when some modifier is malformed |
| Modifiers.ModifierSetsTag | libs/vpnproviders.py:493-504 | `#TAG=v` with a clean v is accepted, names the tag and sets it to v |
| Modifiers.TagTextNoEquals | libs/vpnproviders.py:494-504 | no tag text contains '=', so a tag name survives the split on '=' |
| Locations.EffectivePort | libs/vpnproviders.py:505-507 | a non-empty override for the protocol wins; otherwise the only listed port, or "" |
| Locations.SettlePort | libs/vpnproviders.py:505-507 | the port statements compute EffectivePort |
| Locations.ReadLocation | libs/vpnproviders.py:463-507 | parsing a location line succeeds exactly when ParseLocation does, with its value |
| Locations.ParseLocationFails | libs/vpnproviders.py:463-512 | a location line fails exactly with fewer than four fields, or with a fifth field holding a malformed modifier |
| Locations.LocationLineRoundTrip | libs/vpnproviders.py:463-485 | four comma-free fields joined by commas parse back to those fields with the default tag values |
| Locations.ModifiedLocationRoundTrip | libs/vpnproviders.py:463-507 | five comma-free fields parse back to those fields with the modifiers applied to the defaults |
| Locations.LastModifierWinsInLocation | libs/vpnproviders.py:471-504 | a parsed location's tag value is its last modifier's, or the default |
| Render.ExpandRemote | libs/vpnproviders.py:539-551 | the fan-out loop succeeds exactly when FanOut does, with its text; translate_server becomes the server summary when there are servers |
| Render.FanOutFailureStays | libs/vpnproviders.py:543-549 | once a server has no port, the fan-out fails |
| Render.Copies | libs/vpnproviders.py:543-549 | one copy per server |
| Render.FanOutOneLinePerServer | libs/vpnproviders.py:539-551 | with ports available, the fanned-out `remote ` text is the copies joined by newlines, and splitting it on newlines gives back exactly one copy per server |
| Render.CopyShape | libs/vpnproviders.py:546-548 | each copy is non-empty and newline-free, and has no `#PORT` left when ports are per server |
| Render.FanOutJoin | libs/vpnproviders.py:543-549 | the fan-out text is the newline join of the copies |
| Render.Replacement | libs/vpnproviders.py:553-566 | the fourteen later replacements, in the source's order; each tag is non-empty and starts with `#` |
| Render.ReplaceFromNoHash | libs/vpnproviders.py:553-566 | the fourteen replacements touch only tagged text: a line with no `#` comes through unchanged |
| Render.ReplaceFromKeepsPrefix | libs/vpnproviders.py:553-566 | the replacements keep the part of a line before its first `#` as it is |
| Render.User1Filled | libs/vpnproviders.py:563 | a line with one `#USER1` and no other `#` gets the location's user1 value in its place and is otherwise unchanged |
| Render.PlainLineKept | libs/vpnproviders.py:523-573 | a template line with no `#` that is not a `remote `, `verb ` or (under tcp) explicit-exit-notify line is written as read, stripped, and leaves translate_server alone |
| Render.RenderOne | libs/vpnproviders.py:524-572 | one template line's processing succeeds exactly when RenderLine does, with its text and translate_server |
| Render.RenderProfile | libs/vpnproviders.py:523-573 | the template loop writes exactly the non-empty rendered lines, in order, and keeps translate_server as the fold does |
| Render.RenderFailureStays | libs/vpnproviders.py:523-581 | a line that raises ends the profile with the lines before it |
| Render.RemoveListedWritesNothing | libs/vpnproviders.py:526-573 | a template line whose `#REMOVE` flag the location lists renders to nothing, keeps translate_server, and adds nothing to the profile |
| Render.RemoveAtEndRaises | libs/vpnproviders.py:527 | a template line ending in `#REMOVE` raises |
| Render.RemoveUnlistedKeepsLine | libs/vpnproviders.py:530-534 | a template line whose `#REMOVE` flag the location does not list goes on as the text before the tag, the rest with the tag-plus-flag deleted, and the protocol filled in |
| Render.VerbLinesUseSetting | libs/vpnproviders.py:568-569 | every rendered `verb ` line is `verb ` plus the verbosity setting |
| Render.FinishVerb | libs/vpnproviders.py:568-572 | the last steps leave only the configured `verb ` line |
| Render.TcpDropsExitNotify | libs/vpnproviders.py:572 | under tcp a template line mentioning explicit-exit-notify writes nothing |
| Render.NoServerRaises | libs/vpnproviders.py:553 | a location without servers raises on every template line |
| Render.ChunksClean | libs/vpnproviders.py:568-573 | a profile holds no empty write and no `verb ` line but the configured one |
| Render.RenderLineServer | libs/vpnproviders.py:544-550 | a rendered line sets translate_server to the server summary exactly when it is a `remote ` line |
| Render.ServerAfterRender | libs/vpnproviders.py:539-551 | after a whole template, translate_server is the summary when some line is a `remote ` line, and unchanged otherwise |
| Generate.Augment | libs/vpnproviders.py:426-437 | the template keeps its lines and is followed, in this order, by block-outside-dns, the three ping lines and the three script lines, each as the settings ask, and by nothing else |
| Generate.TranslateLine | libs/vpnproviders.py:576 | a TRANSLATE line starts with the location name and a comma and ends with the protocol in capitals in brackets |
| Generate.Generate | libs/vpnproviders.py:405-458 | no template: nothing is opened and the run fails; no locations file: TRANSLATE is emptied and the run fails |
| Generate.GenerateOVPNFiles | libs/vpnproviders.py:381-589 | the method computes Generate |
| Generate.LocationLoop | libs/vpnproviders.py:461-581 | the location loop computes the fold over the location lines |
| Generate.ProcessLocation | libs/vpnproviders.py:462-581 | one location computes LocationStep |
| Generate.GenerateFailureStays | libs/vpnproviders.py:508-512 | once a location fails, later lines change nothing |
| Generate.LocationsWritten | libs/vpnproviders.py:461-581 | each finished location parsed and has its profile at `<geo>.ovpn` and a TRANSLATE line that starts with its name and ends with its protocol, and that names its servers whenever the template has a `remote ` line; a run that succeeds finishes every location |
| Generate.ExtendWritten | libs/vpnproviders.py:461-581 | the Written property extends from the locations before the last to all of them |
| Generate.LocationStepWritten | libs/vpnproviders.py:462-576 | one location adds at most one profile and one TRANSLATE line, keeps the earlier ones, and the new ones are Written |
| Normalize.FindProto | libs/vpnproviders.py:662-671 | the protocol rescan computes FirstProto |
| Normalize.FirstProtoLine | libs/vpnproviders.py:662-671 | a protocol is found exactly when some line names one; it is the first such line's, tcp checked first |
| Normalize.MakeContext | libs/vpnproviders.py:645-690 | the per-profile values (pass path, port, key and cert paths, #PATH, verbosity) are ContextOf |
| Normalize.UpdateVPNFiles | libs/vpnproviders.py:592-740 | without a TRANSLATE file nothing is written and the run fails; otherwise the result is the profile fold |
| Normalize.CollectFailureStays | libs/vpnproviders.py:728-732 | once a profile raises, later profiles change nothing |
| Normalize.NormalizeProfile | libs/vpnproviders.py:628-726 | one profile's rewrite computes NormalizeFile |
| Normalize.ScanLines | libs/vpnproviders.py:648-704 | the line loop computes the scan fold and the found_ flags of what it wrote |
| Normalize.Advance | libs/vpnproviders.py:648-704 | one line advances the scan and keeps the found_ flags in step |
| Normalize.ScanFailureStays | libs/vpnproviders.py:660 | once a line raises, later lines change nothing |
| Normalize.ProtoOf | libs/vpnproviders.py:645 | the protocol variable ends as FileProto |
| Normalize.Translation | libs/vpnproviders.py:725-726 | the TRANSLATE line is TranslateOf |
| Normalize.BuildTail | libs/vpnproviders.py:706-721 | the appended lines are Tail |
| Normalize.ScriptLines | libs/vpnproviders.py:709-712 | the script lines appended are ScriptTail |
| Normalize.ProcessLine | libs/vpnproviders.py:650-704 | one line computes ScanStep |
| Normalize.RemoteNotAuth | libs/vpnproviders.py:653-658 | the password rewrite never makes or unmakes a `remote ` line |
| Normalize.RemoteLine | libs/vpnproviders.py:658-674 | the remote handling raises exactly when the line lacks a second token and needs one; otherwise it rewrites the line and names the server |
| Normalize.RemoteOverride | libs/vpnproviders.py:672-673 | with a port override a `remote ` line becomes `remote <host> <port>` plus a newline |
| Normalize.RemoteUntouched | libs/vpnproviders.py:658-674 | without an override a `remote ` line is kept, up to #PATH |
| Normalize.EarlyStagesKeep | libs/vpnproviders.py:653-674 | lines starting with neither 'a' nor 'r' skip the password and port rewrites |
| Normalize.AuthRewritten | libs/vpnproviders.py:653-655 | an `auth-user-pass` line points at the add-on's pass.txt when passwords are rewritten |
| Normalize.KeyRewritten | libs/vpnproviders.py:681-682 | a `key ` line points at the user key for providers with user keys |
| Normalize.CertRewritten | libs/vpnproviders.py:679-680 | a `cert ` line points at the user certificate for providers with user keys |
| Normalize.VerbLines | libs/vpnproviders.py:689-690 | every written `verb ` line carries the configured verbosity |
| Normalize.OtherLinesKept | libs/vpnproviders.py:650-704 | any other line is written as read, stripped, up to #PATH |
| Normalize.Rewritten | libs/vpnproviders.py:648-704 | one rewritten line per line |
| Normalize.RewrittenAt | libs/vpnproviders.py:648-704 | the k-th rewritten line is the rewrite of the k-th line |
| Normalize.ScanLength | libs/vpnproviders.py:648-704 | the scan writes at most one line per line, and all of them exactly when it does not raise |
| Normalize.ScanWrites | libs/vpnproviders.py:648-704 | what the scan wrote is the rewrite of a prefix of the profile |
| Normalize.NoteFound | libs/vpnproviders.py:692-702 | the found_ flags after one more line are the old flags updated by that line |
| Normalize.ScanServers | libs/vpnproviders.py:658-674 | server_count is the number of `remote ` lines and translate_server the second token of the first one |
| Normalize.ScanStops | libs/vpnproviders.py:660-674 | a scan that raises stops at a `remote ` line that needed a missing second token |
| NormalizeFacts.FileOutput | libs/vpnproviders.py:648-721 | a completed profile is its rewritten lines plus the tail; a failed one is the rewrite of the lines before a `remote ` line with one token |
| NormalizeFacts.FileCompleted | libs/vpnproviders.py:706-721 | a completed profile has a ping line, the script lines and block-outside-dns whenever the settings ask |
| NormalizeFacts.TailPings | libs/vpnproviders.py:714-721 | the tail supplies a ping line when force_ping is on |
| NormalizeFacts.TailScripts | libs/vpnproviders.py:709-712 | the tail supplies script-security, up and down when up_down_script is on |
| NormalizeFacts.TailBlock | libs/vpnproviders.py:706-707 | the tail supplies block-outside-dns on Windows when asked |
| NormalizeFacts.PingAppended | libs/vpnproviders.py:714-721 | a profile without ping lines ends with the three ping lines for its protocol when force_ping is on; otherwise no ping line is appended |
| NormalizeFacts.TailPing | libs/vpnproviders.py:714-721 | the ping tail is `ping 10`/`ping-exit 60` for tcp and `ping 5`/`ping-exit 30` otherwise, then `ping-timer-rem` |
| NormalizeFacts.FileProtoFrom | libs/vpnproviders.py:645-671 | the protocol is tcp or udp, and tcp exactly when a `remote ` line exists and the first line naming a protocol mentions tcp |
| NormalizeFacts.FirstTcp | libs/vpnproviders.py:662-667 | the rescan finds tcp exactly when the first line naming a protocol mentions tcp |
| NormalizeFacts.TranslateLine | libs/vpnproviders.py:636-726 | a completed profile's TRANSLATE line is its name, the first server, "& n more" for further `remote ` lines, and its protocol in capitals |
| NormalizeFacts.CollectProfiles | libs/vpnproviders.py:627-733 | each profile written is the next listed profile with the lines its rewrite produced |
| NormalizeFacts.CollectCompletes | libs/vpnproviders.py:627-740 | the run succeeds exactly when every profile does, and then every profile has its TRANSLATE line in order |
| NormalizeFacts.CollectStops | libs/vpnproviders.py:728-732 | a failed run stops at its first failing profile, with TRANSLATE lines for exactly the profiles before it |
| ImportPartition.SplitFiles | import.py:96-106 | the selection is refused with the source's message exactly when it holds no `.ovpn` file; otherwise it is partitioned |
| ImportPartition.PartitionMembers | import.py:96-103 | the two lists together have the selection's length: the `.ovpn` names in one and the rest in the other |
| ImportPartition.PartitionOrder | import.py:98-103 | each list keeps the selection's order |
| ImportPartition.Keep | import.py:98-103 | a filtered list is no longer than the selection |
| ImportLines.SeparatorOutput | import.py:55-60 | the separator written into `#PATH` references is "/" or a doubled backslash, and holds no blank |
| ImportLines.InitialTally | import.py:136-163 | every counter starts at zero, with one use counter per other file |
| ImportLines.MatchNames | import.py:187-211 | the inner loop over the other files computes MatchFrom |
| ImportLines.Counted | import.py:213-234 | tag counting never touches the file-use counters |
| ImportLines.LineStep | import.py:184-235 | one line writes one line and keeps one use counter per other file |
| ImportLines.ScanFile | import.py:183-235 | one profile writes one line per line |
| ImportLines.ScanBatch | import.py:165-236 | one rewritten profile, and one protocol, per profile, each of its profile's length |
| ImportLines.ProcessLine | import.py:184-235 | one line computes LineStep |
| ImportLines.ProcessFile | import.py:183-236 | one profile computes ScanFile |
| ImportLines.ImportProfiles | import.py:152-236 | the copy-and-update loop computes ScanBatch |
| ImportFacts.NamesIff | import.py:191-198 | a line names a file exactly when it is not a comment, has two tokens, and its second token is the file's name |
| ImportFacts.QualifiedNeverNames | import.py:194-198 | a second token holding a separator never names a base name, because the separator replacement is discarded |
| ImportFacts.FirstNamed | import.py:189-198 | the first other file the line names, or none |
| ImportFacts.ResolvedNamesNone | import.py:198-200 | a resolved line names no file whose name lacks the separator |
| ImportFacts.MatchNone | import.py:189-211 | a line naming no other file leaves the inner loop unchanged |
| ImportFacts.MatchOnce | import.py:189-211 | the inner loop resolves a line at most once, to the first file it names |
| ImportFacts.CommentLine | import.py:191-235 | a comment line is written as read and changes no counter |
| ImportFacts.UnresolvedLine | import.py:213-235 | an unresolved line changes no use or found counter; a password line counts, and is pointed at pass.txt unless an earlier password line of the profile was resolved |
| ImportFacts.ResolvedLine | import.py:198-206 | a resolved line is written as its first token and a `#PATH` reference to the file, and that file's use counter grows by one |
| ImportFacts.ResolvedMatch | import.py:198-206 | the inner loop rewrites a named line once, remembers the line before, and counts one use |
| ImportFacts.LineBounded | import.py:203-218 | per line, the resolved counts stay within the seen counts |
| ImportFacts.FileBounded | import.py:203-218 | per profile, the resolved counts stay within the seen counts |
| ImportFacts.FoundWithinCount | import.py:203-218 | over the batch, resolved password, cert and key lines never outnumber those seen |
| ImportFacts.LineProto | import.py:229-230 | after a line the protocol is TCP exactly when that written line is a `proto ` line mentioning tcp, and otherwise unchanged |
| ImportFacts.FileProto | import.py:183-230 | a profile's protocol is TCP exactly when some written `proto ` line mentions tcp in any case, and UDP otherwise |
| ImportFacts.BatchProtos | import.py:165-236 | every profile's protocol agrees with its written lines |
| ImportFacts.NoteFromConcat | import.py:219-228 | taking note of a + b is taking note of b after a |
| ImportFacts.NoteFromStart | import.py:219-228 | the note keeps the last line, and "multiple" holds exactly when some line differs from the first |
| ImportFacts.MatchKeepsNotes | import.py:186-199 | the inner loop remembers the line as read and leaves the notes alone |
| ImportFacts.LineNotes | import.py:217-228 | a written `cert `/`key ` line notes the line as read |
| ImportFacts.FileNotes | import.py:217-228 | per profile, the notes are the note over the cert (key) lines as read |
| ImportFacts.NotesStep | import.py:217-228 | the note of one more line extends the note of the lines before |
| ImportFacts.BatchNotes | import.py:217-228 | over the batch, the notes are the note over every cert (key) line as read |
| ImportFacts.MultipleNames | import.py:217-228 | multiple_certs (multiple_keys) holds exactly when two cert (key) lines as read differ |
| ImportReport.Credentials | import.py:276-292 | user_def_credentials is "true" exactly when password lines were seen and none was resolved |
| ImportReport.KeyMode | import.py:294-316 | user_def_keys is "None" exactly without key or cert tags, or when some was resolved; "Multiple" exactly when tags were seen, none resolved, and names differ; "Single" otherwise |
| ImportReport.AuthWarningsIff | import.py:276-288 | "partly resolved" is warned exactly when some but not all password lines were resolved, and "only in some profiles" exactly when fewer were seen than profiles; no password warning exactly when neither holds |
| ImportReport.KeyTagWarningsIff | import.py:295-313 | with key or cert lines seen, "partly resolved" is warned exactly when some but not all were resolved, "only in some profiles" exactly when fewer key or cert lines than profiles were seen, and nothing else is warned |
| ImportReport.KeyWarningsNoneSeen | import.py:314-323 | no key or cert line and nothing embedded: no key warning |
| ImportReport.WarningsNone | import.py:274-334 | an import gives no warning exactly when its password and key parts give none and every other file was used once per profile |
| ImportReport.UsageWarningsNone | import.py:325-334 | no file-use warning exactly when every other file was used once per profile |
| ImportReport.UsageWarningsComplete | import.py:325-334 | every other file not used once per profile is warned about, as unused when never used |
| ImportReport.UsageWarningsSound | import.py:325-334 | every file-use warning is about such a file |
| ImportReport.EmbeddedAlwaysWarnsAsWritten | import.py:314-321 | as written, the embedded-key test fails whenever no key or cert tag was seen |
| ImportReport.EmbeddedPairRejectedAsWritten | import.py:318-321 | as written, one profile with one embedded key and one embedded certificate gets the mismatch warning, which the corrected test does not give |
| ImportReport.EmbeddedMismatchAlwaysAsWritten | import.py:314-321 | as written, every import with embedded keys or certificates and no key or cert line gets the mismatch warning |
| ImportReport.EmbeddedWarning | import.py:317-321 | with the corrected test, embedded keys and certificates are warned about exactly unless each profile has one of each |
| ImportReport.RenameAppends | import.py:238-245 | for a stem without `.ovpn`, `stem.ovpn` is renamed to `stem (PROTO).ovpn`, unless a file of that name exists, when it keeps its name |

## Left out

- File I/O, the Kodi dialogs and progress bar, and the logs (`debugTrace`, `errorTrace`, the import log and its detail lines) are not modelled. Files read are parameters, files written are returned as chunk lists.
- `setSetting` calls: the verbosity default, user_def_credentials and user_def_keys are returned as values, not stored.
- The platform helpers (`getAddonPath`, `getUserDataPath`, their wrappers, `getUpParam`, `getDownParam`, `getPlatform`, `getSeparator`) are opaque parameters. Their own logic is not part of this model.
- `writeGeneratedFile` (the GENERATED flag) is not modelled. The model's `ok` result says when the source would write it.
- copyKeyAndCert: the directory creation and wait loop, and the branch that copies separate key and cert files, are file-system work and are left out. Only the extraction loop is modelled.
- Normalize.UpdateVPNFiles: a profile file that cannot be opened, or an I/O error while writing one, is not modelled. Only the TRANSLATE open failure (`translateOpens`) and the exceptions the line processing raises are.
- Generate.Generate: the TRANSLATE file being opened but not creatable is not distinguished. Its open is assumed to succeed once the template is read.
- The import wizard's cancellation (`iscanceled`), the copy of the other files, and the copy-only path when the user declines to update are left out. Only the update path is modelled.
- `os.path.split` is not modelled: the other files are given by their base names. The properties that rely on names carrying no separator state that as `Basenames`.
- The summary lines of the import that are not warnings (counts and explanations) are left out. The warnings and the two settings are modelled.
- xbmcvfs.exists for the rename target is a parameter (`taken`).

## Findings

| source | as written | input that shows it | evidently intended | confidence | as-written member | corrected member |
|---|---|---|---|---|---|---|
| import.py:318 | the test for embedded keys and certificates requires `key_count == len(ovpn_files)`, but it sits in the branch where `key_count` and `cert_count` are both 0, so it never holds | one `.ovpn` file holding one `<key>` block and one `<cert>` block and no `key `/`cert ` lines: ekey_count = ecert_count = 1, key_count = 0, and the warning is printed | `ekey_count == len(ovpn_files)`: one embedded key and one embedded certificate per profile; ImportReport.KeyWarnings and ImportReport.Warnings use this corrected test, ImportReport.KeyWarningsAsWritten the one as written | not executed | ImportReport.EmbeddedPairRejectedAsWritten | ImportReport.EmbeddedWarning |
