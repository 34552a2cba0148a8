/** The mention link of the post markup (src/components/Markup/MarkupLink/MentionLink.tsx):
    a mention title such as `@lens/alice` is shown as `@alice` and links to the profile
    page of the handle after the leading character. The page path is modelled by the
    handle it carries; `urlcat`'s escaping of that handle is not part of this model. */
module MentionLink {
  import opened Common
  import opened Strings

  /** The prefix Lens mentions carry in the markup. */
  const LensPrefix: string := "@lens/"

  /** `formatMentionTitle`: a title starting with `@lens/` loses the `lens/` part, any
      other title is shown as it is. */
  function FormatMentionTitle(title: string): (r: string)
    ensures StartsWith(title, LensPrefix) ==> r == "@" + title[|LensPrefix|..]
    ensures !StartsWith(title, LensPrefix) ==> r == title
  {
    if StartsWith(title, LensPrefix) then ReplaceFirst(title, LensPrefix, "@") else title
  }

  /** Formatting never lengthens a title; a Lens title loses exactly five characters and
      still begins with `@`. */
  lemma FormatShortens(title: string)
    ensures |FormatMentionTitle(title)| <= |title|
    ensures StartsWith(title, LensPrefix) ==>
      (|FormatMentionTitle(title)| == |title| - 5 && FormatMentionTitle(title)[0] == '@')
  {
  }

  /** What the component renders: the handle the profile link carries and the text shown. */
  datatype Link = Link(handle: string, text: string)

  /** `MentionLink({ title })`: nothing for a missing or empty title; otherwise a link to the
      formatted title without its first character, showing the formatted title (`slice(1)`
      of a one-character title is the empty handle). */
  function MentionLink(title: Option<string>): (r: Option<Link>)
    ensures r.None? <==> (title.None? || title.value == "")
    ensures r.Some? ==> r.value.text == FormatMentionTitle(title.value)
    ensures r.Some? ==> |r.value.text| >= 1 && r.value.text == [r.value.text[0]] + r.value.handle
  {
    match title
    case None => None
    case Some(t) =>
      if t == "" then None
      else
        var shown := FormatMentionTitle(t);
        assert |shown| >= 1;
        assert shown == [shown[0]] + shown[1..];
        Some(Link(shown[1..], shown))
  }

  /** A Lens mention `@lens/<handle>` links to `<handle>` and shows `@<handle>`. */
  lemma LensMentionLinksToHandle(handle: string)
    ensures MentionLink(Some(LensPrefix + handle)) == Some(Link(handle, "@" + handle))
  {
    var t := LensPrefix + handle;
    assert t[..|LensPrefix|] == LensPrefix;
    assert t[|LensPrefix|..] == handle;
    assert ("@" + handle)[1..] == handle;
  }

  /** Any other mention `@<handle>` links to `<handle>` and is shown unchanged. */
  lemma OtherMentionLinksToHandle(handle: string)
    requires !StartsWith("@" + handle, LensPrefix)
    ensures MentionLink(Some("@" + handle)) == Some(Link(handle, "@" + handle))
  {
    assert ("@" + handle)[1..] == handle;
  }
}
