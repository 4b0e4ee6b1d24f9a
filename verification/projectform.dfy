/** The project form's list edits: custom tags, Telegram recipients with
    their comma-separated tag input, the JSON gate on submit and the
    rate-limit notice beside the access level. */
module ProjectForm {
  import opened Wrappers
  import opened Strs
  import opened Json
  import opened Models
  import LogLists
  import ClientApi

  // ------------------------------------------------------ comma-separated

  /** Each piece trimmed, empty pieces dropped (`map(trim).filter(Boolean)`). */
  function Tidy(pieces: seq<string>): (r: seq<string>)
    ensures |r| <= |pieces|
    decreases |pieces|
  {
    if |pieces| == 0 then []
    else
      var t := Trim(pieces[0]);
      if t == "" then Tidy(pieces[1..]) else [t] + Tidy(pieces[1..])
  }

  /** Trimming only drops characters. */
  lemma TrimWithin(s: string, c: char)
    requires c !in s
    ensures c !in Trim(s)
  {
    TrimSpec(s);
  }

  /** What `Tidy` keeps is trimmed and non-empty. */
  lemma {:induction false} TidyShape(pieces: seq<string>)
    ensures forall i :: 0 <= i < |Tidy(pieces)| ==> Tidy(pieces)[i] != "" && Trim(Tidy(pieces)[i]) == Tidy(pieces)[i]
    decreases |pieces|
  {
    if |pieces| > 0 {
      var t := Trim(pieces[0]);
      var rest := Tidy(pieces[1..]);
      TidyStep(pieces);
      TidyShape(pieces[1..]);
      if t != "" {
        TrimIdempotent(pieces[0]);
        CleanCons(t, rest);
      }
    }
  }

  lemma CleanCons(t: string, rest: seq<string>)
    requires t != "" && Trim(t) == t
    requires forall i :: 0 <= i < |rest| ==> rest[i] != "" && Trim(rest[i]) == rest[i]
    ensures forall i :: 0 <= i < |[t] + rest| ==> ([t] + rest)[i] != "" && Trim(([t] + rest)[i]) == ([t] + rest)[i]
  {
    var r := [t] + rest;
    forall i | 0 <= i < |r| ensures r[i] != "" && Trim(r[i]) == r[i] {
      if i > 0 {
        assert r[i] == rest[i - 1];
      }
    }
  }

  lemma AvoidCons(t: string, rest: seq<string>, c: char)
    requires c !in t && forall i :: 0 <= i < |rest| ==> c !in rest[i]
    ensures forall i :: 0 <= i < |[t] + rest| ==> c !in ([t] + rest)[i]
  {
    var r := [t] + rest;
    forall i | 0 <= i < |r| ensures c !in r[i] {
      if i > 0 {
        assert r[i] == rest[i - 1];
      }
    }
  }

  /** A character absent from every piece is absent from what `Tidy`
      keeps. */
  lemma {:induction false} TidyAvoids(pieces: seq<string>, c: char)
    requires forall k :: 0 <= k < |pieces| ==> c !in pieces[k]
    ensures forall i :: 0 <= i < |Tidy(pieces)| ==> c !in Tidy(pieces)[i]
    decreases |pieces|
  {
    if |pieces| > 0 {
      var t := Trim(pieces[0]);
      var rest := Tidy(pieces[1..]);
      TidyStep(pieces);
      assert forall k :: 0 <= k < |pieces[1..]| ==> c !in pieces[1..][k] by {
        assert forall k :: 0 <= k < |pieces[1..]| ==> pieces[1..][k] == pieces[k + 1];
      }
      TidyAvoids(pieces[1..], c);
      if t != "" {
        TrimWithin(pieces[0], c);
        AvoidCons(t, rest, c);
      }
    }
  }

  /** One step of `Tidy`: the first piece, trimmed, is kept when something
      is left of it. */
  lemma TidyStep(pieces: seq<string>)
    requires |pieces| > 0
    ensures var t := Trim(pieces[0]);
      Tidy(pieces) == (if t == "" then [] else [t]) + Tidy(pieces[1..])
  {
  }

  /** `input.split(',').map(t => t.trim()).filter(Boolean)`, the tag input
      of a recipient and of a ping service. */
  function ParseTags(input: string): (r: seq<string>)
    ensures forall i :: 0 <= i < |r| ==> r[i] != "" && Trim(r[i]) == r[i] && ',' !in r[i]
  {
    TidyShape(Split(input, ','));
    TidyAvoids(Split(input, ','), ',');
    Tidy(Split(input, ','))
  }

  /** Trimmed, non-empty tags pass through `Tidy` untouched. */
  lemma {:induction false} TidyTrimmed(tags: seq<string>)
    requires forall i :: 0 <= i < |tags| ==> tags[i] != "" && Trim(tags[i]) == tags[i]
    ensures Tidy(tags) == tags
    decreases |tags|
  {
    if |tags| > 0 {
      TidyKeepsFirst(tags);
      TidyTrimmed(tags[1..]);
      assert tags == [tags[0]] + tags[1..];
    }
  }

  /** A trimmed, non-empty first piece is kept as it is. */
  lemma TidyKeepsFirst(pieces: seq<string>)
    requires |pieces| > 0 && pieces[0] != "" && Trim(pieces[0]) == pieces[0]
    ensures Tidy(pieces) == [pieces[0]] + Tidy(pieces[1..])
  {
  }

  /** A tag list worth typing: non-empty tags without commas or white
      space at their ends. */
  predicate TagList(tags: seq<string>) {
    forall i :: 0 <= i < |tags| ==> tags[i] != "" && Trim(tags[i]) == tags[i] && ',' !in tags[i]
  }

  /** Parsing the tags joined by commas gives the tags back. */
  lemma ParseTagsJoin(tags: seq<string>)
    requires TagList(tags)
    ensures ParseTags(Join(tags, ",")) == tags
  {
    if |tags| > 0 {
      SplitJoin(tags, ',');
      TidyTrimmed(tags);
    }
  }

  /** The ping edit form shows the stored tags joined by `, ` and saves
      them through `ParseTags`: an unedited field saves the same tags. */
  lemma ParseTagsEditRoundTrip(tags: seq<string>)
    requires TagList(tags)
    ensures ParseTags(Join(tags, ", ")) == tags
  {
    if |tags| > 0 {
      var sp := Spaced(tags);
      assert ", " == "," + " ";
      JoinSplitSeparator(tags, ",", " ");
      assert Join(tags, ", ") == Join(sp, ",");
      SpacedFree(tags, ',');
      SplitJoin(sp, ',');
      SpacedTrims(tags);
      TidySpaced(tags, sp);
    }
  }

  lemma {:induction false} TidySpaced(tags: seq<string>, spaced: seq<string>)
    requires |spaced| == |tags|
    requires forall i :: 0 <= i < |tags| ==> tags[i] != "" && Trim(spaced[i]) == tags[i]
    ensures Tidy(spaced) == tags
    decreases |tags|
  {
    if |tags| > 0 {
      var t := Trim(spaced[0]);
      assert t == tags[0] && t != "";
      TidySpaced(tags[1..], spaced[1..]);
      assert Tidy(spaced) == [t] + Tidy(spaced[1..]);
    }
  }

  // ------------------------------------------------------------ form state

  /** The form: the values being edited and the two text inputs. */
  datatype Form = Form(values: ClientApi.ProjectPayload, tagInput: string, chatInput: string, chatTagsInput: string)

  /** `cloneInitialValues`: a copy equal to the initial values (the copy's
      fresh arrays are not observable in a value model). */
  function Clone(v: ClientApi.ProjectPayload): (r: ClientApi.ProjectPayload)
    ensures r == v
  {
    v.(defaultTags := v.defaultTags[..], customTags := v.customTags[..],
       telegram := v.telegram.(recipients := seq(|v.telegram.recipients|, i requires 0 <= i < |v.telegram.recipients| =>
         v.telegram.recipients[i].(tags := v.telegram.recipients[i].tags[..]))))
  }

  /** `addCustomTag`: the trimmed input is appended unless it is empty or
      already a custom tag; only an accepted tag clears the input. */
  function AddCustomTag(f: Form): (r: Form)
    ensures var tag := Trim(f.tagInput);
      if tag == "" || tag in f.values.customTags then r == f
      else (r.values == f.values.(customTags := f.values.customTags + [tag]) && r.tagInput == ""
        && r.chatInput == f.chatInput && r.chatTagsInput == f.chatTagsInput)
  {
    var tag := Trim(f.tagInput);
    if tag == "" || tag in f.values.customTags then f
    else f.(values := f.values.(customTags := f.values.customTags + [tag]), tagInput := "")
  }

  /** `removeCustomTag`: every copy of `tag` goes, the rest stay in order. */
  function RemoveCustomTag(v: ClientApi.ProjectPayload, tag: string): (r: ClientApi.ProjectPayload)
    ensures r == v.(customTags := r.customTags)
    ensures r.customTags == LogLists.Keep(v.customTags, (t: string) => t != tag)
  {
    v.(customTags := LogLists.Keep(v.customTags, (t: string) => t != tag))
  }

  predicate Distinct(s: seq<string>) {
    forall i, j :: 0 <= i < j < |s| ==> s[i] != s[j]
  }

  /** Adding keeps the custom tags free of duplicates. */
  lemma AddKeepsDistinct(f: Form)
    requires Distinct(f.values.customTags)
    ensures Distinct(AddCustomTag(f).values.customTags)
  {
  }

  /** Removing a tag that was just added restores the list. */
  lemma {:induction false} RemoveUndoesAdd(f: Form)
    requires Trim(f.tagInput) != "" && Trim(f.tagInput) !in f.values.customTags
    ensures RemoveCustomTag(AddCustomTag(f).values, Trim(f.tagInput)).customTags == f.values.customTags
  {
    var tag := Trim(f.tagInput);
    var p := (t: string) => t != tag;
    LogLists.KeepAppend(f.values.customTags, tag, p);
    LogLists.KeepAll(f.values.customTags, p);
  }

  /** `addRecipient`: a non-blank trimmed chat id is appended with the
      parsed tags, even when that chat is already listed; both inputs are
      then cleared. A blank chat id changes nothing. */
  function AddRecipient(f: Form): (r: Form)
    ensures Trim(f.chatInput) == "" ==> r == f
    ensures Trim(f.chatInput) != "" ==>
      r.values == f.values.(telegram := f.values.telegram.(recipients := f.values.telegram.recipients
        + [Recipient(Trim(f.chatInput), ParseTags(f.chatTagsInput))]))
      && r.chatInput == "" && r.chatTagsInput == "" && r.tagInput == f.tagInput
  {
    var chatId := Trim(f.chatInput);
    if chatId == "" then f
    else
      var added := Recipient(chatId, ParseTags(f.chatTagsInput));
      f.(values := f.values.(telegram := f.values.telegram.(recipients := f.values.telegram.recipients + [added])),
         chatInput := "", chatTagsInput := "")
  }

  /** `removeRecipient`: all recipients of that chat go. */
  function RemoveRecipient(v: ClientApi.ProjectPayload, chatId: string): (r: ClientApi.ProjectPayload)
    ensures r == v.(telegram := v.telegram.(recipients := r.telegram.recipients))
    ensures chatId !in ChatIds(r.telegram.recipients)
    ensures forall x :: x in v.telegram.recipients && x.chatId != chatId ==> x in r.telegram.recipients
    ensures forall x :: x in r.telegram.recipients ==> x in v.telegram.recipients
  {
    var rs := WithoutChat(v.telegram.recipients, chatId);
    v.(telegram := v.telegram.(recipients := rs))
  }

  /** Adding a chat twice lists it twice; one removal drops both. */
  lemma DuplicateChatRemovedTogether(f: Form)
    requires Trim(f.chatInput) != ""
    ensures var once := AddRecipient(f);
      var twice := AddRecipient(once.(chatInput := f.chatInput));
      |twice.values.telegram.recipients| == |f.values.telegram.recipients| + 2
      && Trim(f.chatInput) !in ChatIds(RemoveRecipient(twice.values, Trim(f.chatInput)).telegram.recipients)
  {
  }

  // ---------------------------------------------------------------- submit

  /** `handleSubmit`: the values go to `onSubmit` only when the log format
      parses; otherwise the validation error is shown. `parses` is whether
      `JSON.parse` succeeds. */
  function Submit(f: Form, parses: string -> bool): (r: (Option<ClientApi.ProjectPayload>, bool))
    ensures r.0.Some? <==> parses(f.values.logFormat)
    ensures r.0.Some? ==> r.0.value == f.values
    ensures r.1 <==> !parses(f.values.logFormat)
  {
    if parses(f.values.logFormat) then (Some(f.values), false) else (None, true)
  }

  /** A form that submits yields a request body, since the API layer
      parses the same text. */
  lemma SubmittedFormSends(f: Form, parse: string -> Option<Json>)
    requires Submit(f, (s: string) => parse(s).Some?).0.Some?
    ensures ClientApi.CreateProject(Submit(f, (s: string) => parse(s).Some?).0.value, parse).Success?
  {
  }

  // ---------------------------------------------------------------- notice

  datatype Notice = GlobalLimit(perMinute: real) | GlobalLimitUnknown | Bypass

  /** The notice under the access level: the limit for global projects (or
      that it is unknown), a bypass notice otherwise. */
  function RateLimitNotice(a: AccessLevel, rateLimit: Option<real>): (n: Notice)
    ensures n.Bypass? <==> a != Global
    ensures a == Global ==> (n.GlobalLimit? <==> rateLimit.Some?)
    ensures n.GlobalLimit? ==> n.perMinute == rateLimit.value
  {
    if a == Global then
      if rateLimit.Some? then GlobalLimit(rateLimit.value) else GlobalLimitUnknown
    else Bypass
  }

  /** Only whether the level is global matters: the two non-global levels
      show the same notice, whatever the limit. */
  lemma NoticeIgnoresOtherLevels(a: AccessLevel, b: AccessLevel, x: Option<real>, y: Option<real>)
    requires a != Global && b != Global
    ensures RateLimitNotice(a, x) == RateLimitNotice(b, y)
  {
  }
}
