/** What the hooks promise about the mail they compose, stated against the
    composer in HookMail. */
module HookMailProperties {
  import opened Wrappers
  import opened RubyStrings
  import opened HookMail

  /** How a metadata value appears in the mail: interpolated, so an absent key shows as "". */
  ghost function Shown(md: Metadata, key: string): string
  {
    if key in md then md[key] else ""
  }

  /** The meeting name the subject carries: prefixed by the course exactly in the moodle branch. */
  ghost function SubjectName(cliId: string, md: Metadata): string
  {
    if IsInstitutional(md) then Shown(md, ContextKey) + " - " + DisplayName(cliId, md)
    else DisplayName(cliId, md)
  }

  /** Without server name and context the body opens with the generic English
      sentence and the subject names the meeting by its display name. */
  lemma FallbackMail(stage: Stage, cliId: string, md: Metadata)
    requires ServerKey !in md && ContextKey !in md
    ensures var body := "The meeting " + DisplayName(cliId, md) + StageSentence(stage, cliId);
      Compose(stage, cliId, md)
        == Success(Mail("[Lingo]" + "同步教室 " + DisplayName(cliId, md) + " " + SubjectPhrase(stage) + " ", body, body))
  {
    SubjectRegrouped(DisplayName(cliId, md), SubjectPhrase(stage));
  }

  /** With a server name or a context (and a meeting id to split) the body opens
      with the bracketed server and a link to the course page on that server;
      the link text and the subject both carry "<context> - <display name>". */
  lemma InstitutionalMail(stage: Stage, cliId: string, md: Metadata)
    requires ServerKey in md || ContextKey in md
    requires MeetingIdKey in md
    ensures var server := Shown(md, ServerKey);
      var origin := "https://" + server;
      var name := Shown(md, ContextKey) + " - " + DisplayName(cliId, md);
      var header := "[" + server + "] - 同步教室 ";
      var link := "課程: <a href='" + origin + "/course/view.php?id=" + CourseId(md[MeetingIdKey]) + "' >" + name + "</a>";
      var body := header + " - " + link + StageSentence(stage, cliId);
      Compose(stage, cliId, md)
        == Success(Mail("[Lingo]" + "同步教室 " + name + " " + SubjectPhrase(stage) + " ", body, body))
  {
    var name := Shown(md, ContextKey) + " - " + DisplayName(cliId, md);
    SubjectRegrouped(name, SubjectPhrase(stage));
  }

  /** `subject "[Lingo]#{subjectString} "` with `subjectString` spelled out. */
  lemma SubjectRegrouped(name: string, phrase: string)
    ensures "[Lingo]" + ("同步教室 " + name + " " + phrase) + " "
      == "[Lingo]" + "同步教室 " + name + " " + phrase + " "
  {
  }

  /** The course id is the text between the first and the second Dash of the
      metadata meeting id (or its end). */
  lemma CourseIdBetweenDashes(a: string, b: string, rest: string)
    requires Dash !in a && Dash !in b
    requires rest == [] || rest[0] == Dash
    ensures CourseId(a + [Dash] + b + rest) == b
  {
    var u := b + rest;
    FieldsOfPlainPrefix(b, rest);
    if rest == [] {
      assert Fields(rest) == [""];
    } else {
      FieldsAfterDash(rest[1..]);
      assert [Dash] + rest[1..] == rest;
    }
    assert Fields(u)[0] == b;
    FieldsAfterDash(u);
    FieldsOfPlainPrefix(a, [Dash] + u);
    assert a + [Dash] + b + rest == a + ([Dash] + u);
  }

  /** A metadata meeting id with fewer than two fields gives an empty course id. */
  lemma CourseIdWithoutDash(s: string)
    requires Dash !in s
    ensures CourseId(s) == ""
  {
    NoDashOneField(s);
  }

  /** A composed mail is the opening followed by the stage sentence, under the
      stage's subject. */
  lemma ComposedParts(stage: Stage, cliId: string, md: Metadata)
    requires Compose(stage, cliId, md).Success?
    ensures ComposeOpening(cliId, md).Success?
    ensures var m := Compose(stage, cliId, md).value;
      m.text == ComposeOpening(cliId, md).value.body + StageSentence(stage, cliId)
      && m.subject == "[Lingo]" + "同步教室 " + SubjectName(cliId, md) + " " + SubjectPhrase(stage) + " "
  {
    assert ComposeOpening(cliId, md).value.name == SubjectName(cliId, md);
    SubjectRegrouped(SubjectName(cliId, md), SubjectPhrase(stage));
  }

  /** The archive sentence names the raw recording directory and ends there, with no link. */
  lemma ArchivedSentence(cliId: string)
    ensures StageSentence(Archived, cliId)
      == " 所有人都已離開目前議程, 開始進行封存.<br/>封存檔案將會在 " + "/var/bigbluebutton/recording/raw/" + cliId + " 目錄內."
  {
  }

  /** The process sentence names the processed presentation directory and ends there, with no link. */
  lemma ProcessedSentence(cliId: string)
    ensures StageSentence(Processed, cliId)
      == " 開始進行轉檔處理, 請稍候.<br/>處理過的檔案將會在 " + "/var/bigbluebutton/recording/process/presentation/" + cliId + " 目錄內."
  {
  }

  /** The publish sentence names the published presentation directory and then
      the playback link for the command-line meeting id. */
  lemma PublishedSentence(cliId: string)
    ensures StageSentence(Published, cliId)
      == " 已經轉檔完成.<br/>轉檔後錄影檔案在 " + "/var/bigbluebutton/published/presentation/" + cliId
        + " 目錄內.<br/>錄影播放連結:" + "https://b0401.edx.tw/playback/presentation/2.0/playback.html?meetingId=" + cliId
  {
  }

  /** The archive hook's body ends with the archive sentence and its subject
      announces that archiving has begun. */
  lemma ArchivedMail(cliId: string, md: Metadata)
    requires Compose(Archived, cliId, md).Success?
    ensures var m := Compose(Archived, cliId, md).value;
      EndsWith(m.text, StageSentence(Archived, cliId))
      && m.subject == "[Lingo]" + "同步教室 " + SubjectName(cliId, md) + " " + "議程結束-開始進行封存" + " "
  {
    ComposedParts(Archived, cliId, md);
    EndsWithAppended(ComposeOpening(cliId, md).value.body, StageSentence(Archived, cliId));
  }

  /** The process hook's body ends with the process sentence and its subject
      announces transcoding. */
  lemma ProcessedMail(cliId: string, md: Metadata)
    requires Compose(Processed, cliId, md).Success?
    ensures var m := Compose(Processed, cliId, md).value;
      EndsWith(m.text, StageSentence(Processed, cliId))
      && m.subject == "[Lingo]" + "同步教室 " + SubjectName(cliId, md) + " " + "開始進行轉檔" + " "
  {
    ComposedParts(Processed, cliId, md);
    EndsWithAppended(ComposeOpening(cliId, md).value.body, StageSentence(Processed, cliId));
  }

  /** The publish hook's body ends with the publish sentence, and so with the
      playback link; its subject announces that transcoding is done. */
  lemma PublishedMail(cliId: string, md: Metadata)
    requires Compose(Published, cliId, md).Success?
    ensures var m := Compose(Published, cliId, md).value;
      EndsWith(m.text, StageSentence(Published, cliId))
      && EndsWith(m.text, PlaybackUrl(cliId))
      && m.subject == "[Lingo]" + "同步教室 " + SubjectName(cliId, md) + " " + "轉檔完成" + " "
  {
    ComposedParts(Published, cliId, md);
    var body := ComposeOpening(cliId, md).value.body;
    var sentence := StageSentence(Published, cliId);
    EndsWithAppended(body, sentence);
    EndsWithSuffix(body + sentence, sentence, PlaybackUrl(cliId));
  }

  /** Different stages put different phrases in the subject and different
      sentences in the body, so the recipient can tell the hooks apart. */
  lemma StagesDistinguishable(s1: Stage, s2: Stage, cliId: string)
    requires s1 != s2
    ensures SubjectPhrase(s1) != SubjectPhrase(s2)
    ensures StageSentence(s1, cliId) != StageSentence(s2, cliId)
  {
    ArchivedSentence(cliId);
    ProcessedSentence(cliId);
    PublishedSentence(cliId);
  }
}
