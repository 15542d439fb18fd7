/**
 * The MIME-type classifier of analizer.py (`classify_file`) and the category
 * labels that key the module-level size table `category_sizes`.
 *
 * The filename-to-MIME-type lookup is not modelled: the classifier takes the
 * lookup's result, an optional MIME type string, as its input.
 */
module Classifier {

  import opened Wrappers

  /** The eight categories of the size table, one per key. */
  datatype Category =
    | Text | Image | Audio | Video | Executable | Archive | Application | Unknown

  /** The categories in the order the size table declares them. */
  const Categories: seq<Category> :=
    [Text, Image, Audio, Video, Executable, Archive, Application, Unknown]

  /** Where a category stands in the table's declaration order. */
  function Position(c: Category): (i: nat)
    ensures i < |Categories| && Categories[i] == c
  {
    match c
    case Text => 0
    case Image => 1
    case Audio => 2
    case Video => 3
    case Executable => 4
    case Archive => 5
    case Application => 6
    case Unknown => 7
  }

  /** The keys of the size table, as it declares them. */
  const TableKeys: seq<string> :=
    ["Text file", "Image file", "Audio file", "Video file",
     "Executable file", "Archive file", "Application file", "Unknown file type"]

  /**
   * The string the classifier returns for each category; it is the table key
   * at the category's position, so the label serves as both.
   */
  function Label(c: Category): (r: string)
    ensures r == TableKeys[Position(c)]
  {
    match c
    case Text => "Text file"
    case Image => "Image file"
    case Audio => "Audio file"
    case Video => "Video file"
    case Executable => "Executable file"
    case Archive => "Archive file"
    case Application => "Application file"
    case Unknown => "Unknown file type"
  }

  /** The MIME types the classifier treats as executables and as archives. */
  const ExecutableTypes: set<string> := {"application/x-executable", "application/x-msdownload"}
  const ArchiveTypes: set<string> := {"application/zip", "application/x-tar"}

  /** Python's `s.startswith(prefix)`. */
  predicate StartsWith(s: string, prefix: string) {
    |prefix| <= |s| && s[..|prefix|] == prefix
  }

  /** True when `s` begins with one of the five top-level types the classifier recognises. */
  predicate HasKnownTopLevel(s: string) {
    StartsWith(s, "text") || StartsWith(s, "image") || StartsWith(s, "audio")
    || StartsWith(s, "video") || StartsWith(s, "application")
  }

  /** The category each MIME type is filed under; never fails. */
  function Classify(mime: Option<string>): (r: Category)
    ensures mime.None? ==> r == Unknown
  {
    // `if mime_type:` is false for None and for the empty string alike
    if mime.None? || mime.value == "" then Unknown
    else
      var m := mime.value;
      if StartsWith(m, "text") then Text
      else if StartsWith(m, "image") then Image
      else if StartsWith(m, "audio") then Audio
      else if StartsWith(m, "video") then Video
      else if StartsWith(m, "application") then
        if m == "application/x-executable" || m == "application/x-msdownload" then Executable
        else if m == "application/zip" || m == "application/x-tar" then Archive
        else Application
      else Unknown
  }

  /**
   * Every category is listed exactly once and no two categories share a
   * label, so the table has eight distinct keys and the report eight lines.
   */
  lemma {:induction false} CategoriesDistinct()
    ensures forall c: Category :: c in Categories
    ensures forall i, j :: 0 <= i < j < |Categories| ==> Categories[i] != Categories[j]
    ensures forall c, d :: Label(c) == Label(d) ==> c == d
  {
    forall c: Category ensures c in Categories {
      assert Categories[Position(c)] == c;
    }
    forall c, d | Label(c) == Label(d) ensures c == d {
      // the labels differ in length or in their first character
      assert |Label(c)| != |Label(d)| || Label(c)[0] != Label(d)[0] || c == d;
    }
  }

  /** The first test wins: anything starting with `text` is a text file. */
  lemma ClassifyText(m: string)
    ensures Classify(Some(m)) == Text <==> StartsWith(m, "text")
  {
  }

  /** A type is an image when it starts with `image` and the text test failed. */
  lemma ClassifyImage(m: string)
    ensures Classify(Some(m)) == Image <==> !StartsWith(m, "text") && StartsWith(m, "image")
  {
  }

  /** A type is audio when it starts with `audio` and both earlier tests failed. */
  lemma ClassifyAudio(m: string)
    ensures Classify(Some(m)) == Audio
            <==> !StartsWith(m, "text") && !StartsWith(m, "image") && StartsWith(m, "audio")
  {
  }

  /** A type is video when it starts with `video` and the three earlier tests failed. */
  lemma ClassifyVideo(m: string)
    ensures Classify(Some(m)) == Video
            <==> !StartsWith(m, "text") && !StartsWith(m, "image") && !StartsWith(m, "audio")
                 && StartsWith(m, "video")
  {
  }

  /** A type with the `application` prefix has none of the four prefixes tested before it. */
  lemma ApplicationExcludesEarlierPrefixes(m: string)
    requires StartsWith(m, "application")
    ensures m != ""
    ensures !StartsWith(m, "text") && !StartsWith(m, "image")
    ensures !StartsWith(m, "audio") && !StartsWith(m, "video")
  {
    assert m[0] == 'a' && m[1] == 'p';
  }

  /** The four special application types carry the `application` prefix. */
  lemma SpecialTypesAreApplication(m: string)
    requires m in ExecutableTypes || m in ArchiveTypes
    ensures StartsWith(m, "application")
  {
    assert m[..11] == "application";
  }

  /** Exactly the two executable types are executables: no prefix test is needed to say so. */
  lemma ClassifyExecutable(m: string)
    ensures Classify(Some(m)) == Executable <==> m in ExecutableTypes
  {
    if m in ExecutableTypes {
      SpecialTypesAreApplication(m);
      ApplicationExcludesEarlierPrefixes(m);
    }
  }

  /** Exactly the two archive types are archives. */
  lemma ClassifyArchive(m: string)
    ensures Classify(Some(m)) == Archive <==> m in ArchiveTypes
  {
    if m in ArchiveTypes {
      SpecialTypesAreApplication(m);
      ApplicationExcludesEarlierPrefixes(m);
    }
  }

  /** Every other `application` string is a generic application file. */
  lemma ClassifyApplication(m: string)
    ensures Classify(Some(m)) == Application
            <==> StartsWith(m, "application") && m !in ExecutableTypes && m !in ArchiveTypes
  {
    if StartsWith(m, "application") {
      ApplicationExcludesEarlierPrefixes(m);
    }
  }

  /** A missing type, or one with none of the five top-level prefixes, is unknown. */
  lemma ClassifyUnknown(mime: Option<string>)
    ensures Classify(mime) == Unknown <==> mime.None? || !HasKnownTopLevel(mime.value)
  {
  }

  /** The prefix tests have no slash: a type merely beginning with `text` is a text file. */
  lemma TextPrefixWithoutSlash()
    ensures Classify(Some("textual")) == Text
  {
  }

  /** Likewise any string beginning with `application` is an application file. */
  lemma ApplicationPrefixWithoutSlash()
    ensures Classify(Some("applicationx")) == Application
  {
    assert "applicationx"[..11] == "application";
    ClassifyApplication("applicationx");
  }
}
