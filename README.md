# Recording-hook mail composer

A model of the notification that the three post-recording hooks of a
BigBlueButton installation compose: `post_archive`, `post_process` and
`post_publish`. Each hook gets a meeting id on its command line. It reads the
meeting metadata from the recording's `events.xml` and builds a
Traditional-Chinese mail with a subject, a plain-text part and an HTML part.
It then hands the mail to an SMTP relay.

The three scripts share the same composition. They differ only in the stage
sentence, the directory named in it and the subject phrase. The model is one
pure function, `HookMail.Compose(stage, cliId, md)`, with
`Stage = Archived | Processed | Published`. It returns
`Success(Mail(subject, text, html))`, or `Failure(MeetingIdMissing)` when the
script would raise before sending.

- `Wrappers`: `Option` (Ruby's `nil`) and `Result`.
- `RubyStrings`: the Ruby behaviour the scripts depend on:
  - `"#{nil}"` interpolates as `""`.
  - `Array#[]` past the end gives `nil`.
  - `String#split("-")` keeps leading and inner empty fields and drops trailing
    ones. `Fields` holds every field and `Split` drops the trailing empty ones.
- `HookMail`: the composer, from the metadata extraction through `Mail.deliver`'s
  arguments, plus the stage directory on line 17. This covers line 36 to the
  end of the `Mail.deliver` block: lines 36–74 of post_archive, 36–72 of
  post_process and 36–73 of post_publish.
- `HookMailProperties`: the promises of the scripts as lemmas about `Compose`.
- `HookMailScenarios`: concrete inputs: a moodle meeting, empty metadata, a
  context without a server, a server without a meeting id, and odd meeting ids
  under `split`.

The moodle branch is guarded by `unless serverName.nil? && courseName.nil?`, so
one of `bbb-origin-server-name` and `bbb-context` is enough to take it. An
absent server name then shows as `[]` in the header and as `https:///course/...`
in the link. `Compose` is a function, so two calls with the same inputs give the
same mail.

## Model

| member | source | states |
|---|---|---|
| `RubyStrings.Interpolate` | post-scripts/post_publish-zh_tw.v2.rb:46-48 | `"#{x}"` renders a present value as itself and `nil` as the empty string. |
| `RubyStrings.Split` | post-scripts/post_publish-zh_tw.v2.rb:49 | `meetingId.split("-")` gives the `-`-separated fields in order, none containing `-`. Only trailing empty fields are dropped, so the result is empty or its last field is non-empty. |
| `RubyStrings.DropTrailingEmpty` | post-scripts/post_archive-zh_tw.v2.rb:48 | Ruby's trailing-empty removal returns the prefix that is empty or ends in a non-empty field. Everything it removes is empty. |
| `RubyStrings.Fields` | post-scripts/post_process-zh_tw.v2.rb:48 | The split into fields yields at least one field, and no field contains `-`. |
| `RubyStrings.JoinFields` | post-scripts/post_archive-zh_tw.v2.rb:48-49 | Joining the fields of a meeting id with `-` gives the meeting id back, so nothing is lost by splitting. |
| `RubyStrings.FieldsJoin` | post-scripts/post_process-zh_tw.v2.rb:48-49 | Splitting a `-`-join of dash-free fields gives those fields back, the other half of the round trip. |
| `RubyStrings.At` | post-scripts/post_publish-zh_tw.v2.rb:50 | `mId[1]` is the element when the index is in range and `nil` otherwise. |
| `HookMail.Lookup` | post-scripts/post_publish-zh_tw.v2.rb:37-40 | `md.key?(k) ? md[k].value : nil`: present exactly when the key is present, with its value. |
| `HookMail.DisplayName` | post-scripts/post_publish-zh_tw.v2.rb:40-41 | The display name is `meetingName` if that key exists, else `title` if that key exists, else the command-line meeting id. |
| `HookMail.IsInstitutional` | post-scripts/post_process-zh_tw.v2.rb:44 | The moodle branch is taken exactly when `bbb-origin-server-name` or `bbb-context` is present, or both. |
| `HookMail.CourseId` | post-scripts/post_publish-zh_tw.v2.rb:49-51 | The course id is the second raw `-` field of the metadata `meetingId`, or `""` when there is none. It never contains `-`. |
| `HookMail.StageDirectory` | post-scripts/post_archive-zh_tw.v2.rb:17 | Each stage's directory (`raw/`, `process/presentation/`, `published/presentation/` under `/var/bigbluebutton`) ends with the command-line meeting id. The same line is at post_process:17 and post_publish:17. |
| `HookMail.PlaybackUrl` | post-scripts/post_publish-zh_tw.v2.rb:36 | The playback URL ends with the command-line meeting id. |
| `HookMail.StageSentence` | post-scripts/post_publish-zh_tw.v2.rb:58 | The published sentence ends with the playback URL. The archive and process sentences (post_archive:57, post_process:57) end with ` 目錄內.`. |
| `HookMail.SubjectPhrase` | post-scripts/post_process-zh_tw.v2.rb:59 | Every stage has a non-empty subject phrase. The same line is at post_archive:59 and post_publish:60. |
| `HookMail.ComposeOpening` | post-scripts/post_archive-zh_tw.v2.rb:36-52 | Extraction and the moodle block fail exactly when the branch is taken without a `meetingId`. Otherwise the body opens with `[` exactly in the moodle branch. |
| `HookMail.Compose` | post-scripts/post_publish-zh_tw.v2.rb:36-73 | Fails exactly when the moodle branch is taken without a `meetingId` (`nil.split`, nothing is sent). On success the text and HTML parts are the same string. The text opens with `[` exactly in the moodle branch, and the subject opens with `[Lingo]同步教室 `. |
| `HookMailProperties.FallbackMail` | post-scripts/post_process-zh_tw.v2.rb:43-44 | With neither server nor context present, the mail is `"The meeting " + displayName` followed by the stage sentence. The subject is `[Lingo]同步教室 <displayName> <phrase> `. |
| `HookMailProperties.InstitutionalMail` | post-scripts/post_publish-zh_tw.v2.rb:44-53 | In the moodle branch the body is `[server] - 同步教室 ` + ` - ` + `課程: <a href='https://server/course/view.php?id=<courseId>' ><context> - <displayName></a>`, then the stage sentence. The subject carries `<context> - <displayName>`. An absent server or context shows as `""`. |
| `HookMailProperties.CourseIdBetweenDashes` | post-scripts/post_archive-zh_tw.v2.rb:48-50 | The course id is exactly the text between the first and the second `-` of the meeting id, or the end. `"a-"` and `"a--b"` give `""`. |
| `HookMailProperties.CourseIdWithoutDash` | post-scripts/post_process-zh_tw.v2.rb:48-51 | A metadata meeting id with fewer than two fields (no `-`) renders as an empty course id in the href. |
| `HookMailProperties.ComposedParts` | post-scripts/post_publish-zh_tw.v2.rb:58-65 | Every composed mail is the opening followed by the stage sentence. Its subject carries the course prefix exactly when the moodle branch was taken. |
| `HookMailProperties.ArchivedSentence` | post-scripts/post_archive-zh_tw.v2.rb:57 | The archive sentence is ` 所有人都已離開目前議程, 開始進行封存.<br/>封存檔案將會在 /var/bigbluebutton/recording/raw/<id> 目錄內.`. |
| `HookMailProperties.ProcessedSentence` | post-scripts/post_process-zh_tw.v2.rb:57 | The process sentence is ` 開始進行轉檔處理, 請稍候.<br/>處理過的檔案將會在 /var/bigbluebutton/recording/process/presentation/<id> 目錄內.`. |
| `HookMailProperties.PublishedSentence` | post-scripts/post_publish-zh_tw.v2.rb:58 | The publish sentence names `/var/bigbluebutton/published/presentation/<id>` and ends with `錄影播放連結:` and the playback URL of the command-line id. |
| `HookMailProperties.ArchivedMail` | post-scripts/post_archive-zh_tw.v2.rb:57-64 | The archive body ends with the archive sentence, with nothing after it and so no playback link. The subject is `[Lingo]同步教室 <name> 議程結束-開始進行封存 `. |
| `HookMailProperties.ProcessedMail` | post-scripts/post_process-zh_tw.v2.rb:57-64 | The process body ends with the process sentence, with nothing after it. The subject is `[Lingo]同步教室 <name> 開始進行轉檔 `. |
| `HookMailProperties.PublishedMail` | post-scripts/post_publish-zh_tw.v2.rb:58-65 | The publish body ends with the publish sentence and so with the playback URL of the command-line id. The subject is `[Lingo]同步教室 <name> 轉檔完成 `. |
| `HookMailProperties.StagesDistinguishable` | post-scripts/post_publish-zh_tw.v2.rb:58-60 | Two different stages never share a subject phrase or a stage sentence, so a reader can tell the three hooks' mails apart. The other lines are post_archive:57-59 and post_process:57-59. |
| `HookMailScenarios.SplitTrailingDash` | post-scripts/post_publish-zh_tw.v2.rb:49 | `"abc-".split("-")` is `["abc"]`. |
| `HookMailScenarios.SplitEmpty` | post-scripts/post_archive-zh_tw.v2.rb:48 | `"".split("-")` is `[]`. |
| `HookMailScenarios.SplitInnerEmpty` | post-scripts/post_process-zh_tw.v2.rb:48 | `"-a"` splits into `["", "a"]` and `"a--b"` into `["a", "", "b"]`. |
| `HookMailScenarios.MoodleCourseId` | post-scripts/post_publish-zh_tw.v2.rb:49-50 | The meeting id `abc-42-xyz` yields course id `42`. |
| `HookMailScenarios.PublishedMoodleMeeting` | post-scripts/post_publish-zh_tw.v2.rb:36-65 | For a moodle meeting, the published mail links `https://school.example.edu/course/view.php?id=42`. The link text and the subject read `MATH101 - Algebra 101`. |
| `HookMailScenarios.ArchivedWithoutMetadata` | post-scripts/post_archive-zh_tw.v2.rb:39-59 | With empty metadata the archive mail names the meeting by its command-line id `m1` and takes the fallback branch. |
| `HookMailScenarios.ProcessedWithContextOnly` | post-scripts/post_process-zh_tw.v2.rb:43-51 | With only `bbb-context` present the moodle branch is still taken. The server shows as `[]`, and the link as `https://` + `""` + `/course/view.php?id=42`. |
| `HookMailScenarios.ServerWithoutMeetingId` | post-scripts/post_publish-zh_tw.v2.rb:37-49 | A server name without a `meetingId` makes the publish hook fail before sending. |

## Left out

- Command-line parsing with Trollop is left out. The meeting id is a `string` input. An omitted `--meeting-id` would give `nil`, which interpolates as `""`, and that case is not modelled separately. `--format` is unused by the composition.
- The events.xml parser `BigBlueButton::Events.get_meeting_metadata` is external. Its result is the input `map<string, string>`, each entry being the element's `.value`.
- Logger setup with weekly rotation, `Mail.defaults` (the SMTP relay settings and credentials) and `Mail.deliver` (the network transport, the fixed recipient and the sender) are side effects. The model stops at the subject and the two body parts handed to `Mail.deliver`. The HTML part's `content_type` header is not modelled.
- post-scripts/sftppublished.rb (the SFTP upload of the published files and the sentinel file) is remote-session plumbing with no composition logic. It is not part of this model.
- The commented-out alternative templates and `exit 0` are not part of this model.
- HookMailProperties.ArchivedMail: "no playback link" is stated structurally. The body ends with the directory sentence, and nothing follows it. It does not say that no substring of the body looks like a playback URL, because metadata values and the meeting id are arbitrary text that the scripts interpolate unescaped.
- HookMailProperties.ProcessedMail: "no playback link" is stated structurally, for the same reason as ArchivedMail.
- Only the three lifecycle stages are modelled. No other stage exists in the scripts.
