/** Concrete inputs worked through the composer: the end-to-end cases a
    deployment meets, and how Ruby's split treats odd meeting ids. */
module HookMailScenarios {
  import opened Wrappers
  import opened RubyStrings
  import opened HookMail
  import opened HookMailProperties

  /** A trailing empty field is dropped: "abc-" splits like "abc". */
  lemma SplitTrailingDash()
    ensures Split("abc-") == ["abc"]
  {
    FieldsAfterDash("");
    assert [Dash] + "" == "-";
    assert Fields("-") == ["", ""];
    FieldsOfPlainPrefix("abc", "-");
    assert "abc-" == "abc" + "-";
    assert Fields("-")[1..] == [""] && "abc" + Fields("-")[0] == "abc";
    assert Fields("abc-") == ["abc", ""];
    assert DropTrailingEmpty(["abc", ""]) == DropTrailingEmpty(["abc"]);
  }

  /** The empty string splits into no fields at all. */
  lemma SplitEmpty()
    ensures Split("") == []
  {
    assert Fields("") == [""];
    assert DropTrailingEmpty([""]) == DropTrailingEmpty([]);
  }

  /** A leading or inner empty field stays. */
  lemma SplitInnerEmpty()
    ensures Split("-a") == ["", "a"]
    ensures Split("a--b") == ["a", "", "b"]
  {
    NoDashOneField("a");
    FieldsAfterDash("a");
    assert "-a" == [Dash] + "a";
    NoDashOneField("b");
    FieldsAfterDash("b");
    FieldsAfterDash("-b");
    FieldsOfPlainPrefix("a", "--b");
    assert "-b" == [Dash] + "b";
    assert "--b" == [Dash] + "-b";
    assert "a--b" == "a" + "--b";
    assert Fields("a--b") == ["a", "", "b"];
  }

  /** The course id of meeting id "abc-42-xyz" is 42. */
  lemma MoodleCourseId()
    ensures CourseId("abc-42-xyz") == "42"
  {
    CourseIdBetweenDashes("abc", "42", "-xyz");
    assert "abc-42-xyz" == "abc" + [Dash] + "42" + "-xyz";
  }

  /** A moodle meeting published with meeting id "abc-42-xyz": course 42 on
      the origin server, the context and display name in the link and the
      subject, and the playback link for the command-line id. */
  lemma PublishedMoodleMeeting()
    ensures var md := map[MeetingNameKey := "Algebra 101", ContextKey := "MATH101",
                          ServerKey := "school.example.edu", MeetingIdKey := "abc-42-xyz"];
      var server, id := "school.example.edu", "abc-42-xyz-1";
      var name := "MATH101" + " - " + "Algebra 101";
      var header := "[" + server + "] - 同步教室 ";
      var link := "課程: <a href='" + ("https://" + server) + "/course/view.php?id=" + "42" + "' >" + name + "</a>";
      var body := header + " - " + link + StageSentence(Published, id);
      Compose(Published, id, md) == Success(Mail("[Lingo]" + "同步教室 " + name + " " + SubjectPhrase(Published) + " ", body, body))
  {
    var md := map[MeetingNameKey := "Algebra 101", ContextKey := "MATH101",
                  ServerKey := "school.example.edu", MeetingIdKey := "abc-42-xyz"];
    MoodleFields(md);
    InstitutionalMail(Published, "abc-42-xyz-1", md);
  }

  /** The fields the composer reads from the moodle meeting's metadata. */
  lemma MoodleFields(md: Metadata)
    requires md == map[MeetingNameKey := "Algebra 101", ContextKey := "MATH101",
                       ServerKey := "school.example.edu", MeetingIdKey := "abc-42-xyz"]
    ensures DisplayName("abc-42-xyz-1", md) == "Algebra 101"
    ensures Shown(md, ServerKey) == "school.example.edu" && Shown(md, ContextKey) == "MATH101"
    ensures MeetingIdKey in md && CourseId(md[MeetingIdKey]) == "42"
  {
    KeysDistinct();
    assert md[MeetingNameKey] == "Algebra 101" && md[ContextKey] == "MATH101";
    assert md[ServerKey] == "school.example.edu" && md[MeetingIdKey] == "abc-42-xyz";
    MoodleCourseId();
  }

  /** With no metadata at all the archive mail falls back to the command-line id. */
  lemma ArchivedWithoutMetadata()
    ensures var id := "m1";
      var body := "The meeting " + id + StageSentence(Archived, id);
      Compose(Archived, id, map[]) == Success(Mail("[Lingo]" + "同步教室 " + id + " " + SubjectPhrase(Archived) + " ", body, body))
  {
    var md: Metadata := map[];
    FallbackMail(Archived, "m1", md);
    assert DisplayName("m1", md) == "m1";
  }

  /** Only the context present: still the moodle branch, with nothing between
      the brackets and nothing between "https://" and the course path. */
  lemma ProcessedWithContextOnly()
    ensures var md := map[ContextKey := "MATH101", MeetingIdKey := "abc-42"];
      var id := "m1";
      var name := "MATH101" + " - " + id;
      var header := "[" + "" + "] - 同步教室 ";
      var link := "課程: <a href='" + ("https://" + "") + "/course/view.php?id=" + "42" + "' >" + name + "</a>";
      var body := header + " - " + link + StageSentence(Processed, id);
      Compose(Processed, id, md) == Success(Mail("[Lingo]" + "同步教室 " + name + " " + SubjectPhrase(Processed) + " ", body, body))
  {
    var md := map[ContextKey := "MATH101", MeetingIdKey := "abc-42"];
    ContextOnlyFields(md);
    ShortCourseId();
    InstitutionalMail(Processed, "m1", md);
  }

  /** The fields the composer reads from metadata with a context and no server. */
  lemma ContextOnlyFields(md: Metadata)
    requires md == map[ContextKey := "MATH101", MeetingIdKey := "abc-42"]
    ensures DisplayName("m1", md) == "m1"
    ensures Shown(md, ServerKey) == "" && Shown(md, ContextKey) == "MATH101"
    ensures MeetingIdKey in md && md[MeetingIdKey] == "abc-42"
  {
    KeysDistinct();
    assert md[ContextKey] == "MATH101" && md[MeetingIdKey] == "abc-42";
  }

  /** The course id of meeting id "abc-42" is 42: the second field runs to the end. */
  lemma ShortCourseId()
    ensures CourseId("abc-42") == "42"
  {
    CourseIdBetweenDashes("abc", "42", "");
    assert "abc-42" == "abc" + [Dash] + "42" + "";
  }

  /** A server name without a meeting id: the hook raises before any mail is sent. */
  lemma ServerWithoutMeetingId()
    ensures Compose(Published, "m1", map[ServerKey := "school.example.edu"]) == Failure(MeetingIdMissing)
  {
  }
}
