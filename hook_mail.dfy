/** The notification that each lifecycle hook (post_archive, post_process,
    post_publish) composes from the meeting id given on its command line and
    the meeting's metadata. The three scripts differ only in the stage
    sentence, the directory they name and the subject phrase, so one
    composer takes the stage as a parameter. */
module HookMail {
  import opened Wrappers
  import opened RubyStrings

  /** The lifecycle event after which a hook runs. */
  datatype Stage = Archived | Processed | Published

  /** Meeting metadata read from the recording's events.xml: key to value. */
  type Metadata = map<string, string>

  /** What a hook hands to Mail.deliver: the subject and the two body parts. */
  datatype Mail = Mail(subject: string, text: string, html: string)

  /** The body prefix and the meeting name as they stand after the moodle block. */
  datatype Opening = Opening(body: string, name: string)

  /** The one way composing fails: the moodle branch calls `split` on the
      metadata meeting id, which is nil when the key is missing (NoMethodError). */
  datatype ComposeError = MeetingIdMissing

  const MeetingIdKey: string := "meetingId"
  const ServerKey: string := "bbb-origin-server-name"
  const ContextKey: string := "bbb-context"
  const MeetingNameKey: string := "meetingName"
  const TitleKey: string := "title"

  /** The five keys are different strings. */
  lemma KeysDistinct()
    ensures MeetingIdKey != ServerKey && MeetingIdKey != ContextKey && MeetingIdKey != MeetingNameKey
    ensures MeetingIdKey != TitleKey && ServerKey != ContextKey && ServerKey != MeetingNameKey
    ensures ServerKey != TitleKey && ContextKey != MeetingNameKey && ContextKey != TitleKey
    ensures MeetingNameKey != TitleKey
  {
    assert |MeetingIdKey| == 9 && |ServerKey| == 22 && |TitleKey| == 5;
    assert |ContextKey| == 11 && |MeetingNameKey| == 11 && ContextKey[0] != MeetingNameKey[0];
  }

  /** `md.key?(k) ? md[k].value : nil` */
  function Lookup(md: Metadata, key: string): (r: Option<string>)
    ensures r.Some? <==> key in md
    ensures r.Some? ==> r.value == md[key]
  {
    if key in md then Some(md[key]) else None
  }

  /** The name the mail calls the meeting: meetingName, else title, else the
      command-line meeting id. `||=` keeps any string, even an empty one,
      because only nil and false are falsy in Ruby. */
  function DisplayName(cliId: string, md: Metadata): (r: string)
    ensures MeetingNameKey in md ==> r == md[MeetingNameKey]
    ensures MeetingNameKey !in md && TitleKey in md ==> r == md[TitleKey]
    ensures MeetingNameKey !in md && TitleKey !in md ==> r == cliId
  {
    var meetingName := Lookup(md, MeetingNameKey);
    if meetingName.Some? then meetingName.value
    else if TitleKey in md then md[TitleKey] else cliId
  }

  /** The moodle branch is guarded by `unless serverName.nil? && courseName.nil?`:
      one of the two keys is enough. */
  function IsInstitutional(md: Metadata): (r: bool)
    ensures r <==> ServerKey in md || ContextKey in md
  {
    !(Lookup(md, ServerKey).None? && Lookup(md, ContextKey).None?)
  }

  /** `"#{meetingId.split("-")[1]}"`: the second field of the split, or the
      empty string when the split has no second element. */
  function CourseId(meetingId: string): (r: string)
    ensures r == if |Fields(meetingId)| >= 2 then Fields(meetingId)[1] else ""
    ensures Dash !in r
  {
    Interpolate(At(Split(meetingId), 1))
  }

  /** The directory each hook names in its body, named after the meeting. */
  function StageDirectory(stage: Stage, cliId: string): (r: string)
    ensures EndsWith(r, cliId)
  {
    var root := match stage
      case Archived => "/var/bigbluebutton/recording/raw/"
      case Processed => "/var/bigbluebutton/recording/process/presentation/"
      case Published => "/var/bigbluebutton/published/presentation/";
    EndsWithAppended(root, cliId);
    root + cliId
  }

  /** The playback link of a published recording, for the command-line meeting id. */
  function PlaybackUrl(cliId: string): (r: string)
    ensures EndsWith(r, cliId)
  {
    EndsWithAppended("https://b0401.edx.tw/playback/presentation/2.0/playback.html?meetingId=", cliId);
    "https://b0401.edx.tw/playback/presentation/2.0/playback.html?meetingId=" + cliId
  }

  /** The stage-specific sentence appended to the body: only the published
      one ends with the playback link, the others end with the directory. */
  function StageSentence(stage: Stage, cliId: string): (r: string)
    ensures stage == Published ==> EndsWith(r, PlaybackUrl(cliId))
    ensures stage != Published ==> EndsWith(r, " 目錄內.")
  {
    match stage
    case Archived =>
      var lead := " 所有人都已離開目前議程, 開始進行封存.<br/>封存檔案將會在 " + StageDirectory(stage, cliId);
      EndsWithAppended(lead, " 目錄內.");
      lead + " 目錄內."
    case Processed =>
      var lead := " 開始進行轉檔處理, 請稍候.<br/>處理過的檔案將會在 " + StageDirectory(stage, cliId);
      EndsWithAppended(lead, " 目錄內.");
      lead + " 目錄內."
    case Published =>
      var lead := " 已經轉檔完成.<br/>轉檔後錄影檔案在 " + StageDirectory(stage, cliId) + " 目錄內.<br/>錄影播放連結:";
      EndsWithAppended(lead, PlaybackUrl(cliId));
      lead + PlaybackUrl(cliId)
  }

  /** The stage-specific phrase after the meeting name in the subject. */
  function SubjectPhrase(stage: Stage): (r: string)
    ensures r != ""
  {
    match stage
    case Archived => "議程結束-開始進行封存"
    case Processed => "開始進行轉檔"
    case Published => "轉檔完成"
  }

  /** The field extraction and the moodle block: the generic sentence, or the
      bracketed server, the classroom word and a link to the course page. */
  function ComposeOpening(cliId: string, md: Metadata): (r: Result<Opening, ComposeError>)
    ensures r.Failure? <==> IsInstitutional(md) && MeetingIdKey !in md
    ensures r.Success? ==> r.value.body != [] && (r.value.body[0] == '[' <==> IsInstitutional(md))
  {
    var meetingId := Lookup(md, MeetingIdKey);
    var serverName := Lookup(md, ServerKey);
    var courseName := Lookup(md, ContextKey);
    var meetingName := DisplayName(cliId, md);
    var bodyString := "The meeting " + meetingName;
    if serverName.None? && courseName.None? then
      assert bodyString[0] == 'T';
      Success(Opening(bodyString, meetingName))
    else if meetingId.None? then
      Failure(MeetingIdMissing)
    else
      var header := "[" + Interpolate(serverName) + "] - 同步教室 ";
      assert header[0] == '[';
      var origin := "https://" + Interpolate(serverName);
      var name := Interpolate(courseName) + " - " + meetingName;
      var courseLink := "課程: <a href='" + origin + "/course/view.php?id=" + CourseId(meetingId.value) + "' >" + name + "</a>";
      Success(Opening(header + " - " + courseLink, name))
  }

  /** The mail one hook sends for the given stage. */
  function Compose(stage: Stage, cliId: string, md: Metadata): (r: Result<Mail, ComposeError>)
    ensures r.Failure? <==> IsInstitutional(md) && MeetingIdKey !in md
    ensures r.Success? ==> r.value.text == r.value.html
    ensures r.Success? ==> (StartsWith(r.value.text, "[") <==> IsInstitutional(md))
    ensures r.Success? ==> StartsWith(r.value.subject, "[Lingo]" + "同步教室 ")
  {
    match ComposeOpening(cliId, md)
    case Failure(e) => Failure(e)
    case Success(opening) =>
      var bodyString := opening.body + StageSentence(stage, cliId);
      var subjectString := "同步教室 " + opening.name + " " + SubjectPhrase(stage);
      var subject := "[Lingo]" + subjectString + " ";
      StartsWithFirstChar(opening.body, StageSentence(stage, cliId), '[');
      assert subjectString == "同步教室 " + (opening.name + " " + SubjectPhrase(stage));
      StartsWithLeading("[Lingo]", "同步教室 ", opening.name + " " + SubjectPhrase(stage), " ");
      Success(Mail(subject, bodyString, bodyString))
  }
}
