/**
 * The two string classifiers of the application's utility library: the
 * category a stored file is filed under, derived from its MIME type, and the
 * category key a dashboard page name stands for.
 */
module Utils {

  /** The five values of the FileCategory union type. */
  const FileCategories: set<string> := {"document", "video", "image", "audio", "other"}

  /** The plural dashboard page names that stand for a category, with the category each stands for. */
  const PluralPageNames: map<string, string> :=
    map["documents" := "document", "images" := "image", "videos" := "video", "others" := "other"]

  /** String.prototype.startsWith: case-sensitive, character by character. */
  predicate StartsWith(s: string, prefix: string)
  {
    |prefix| <= |s| && s[..|prefix|] == prefix
  }

  /** The leading characters that tell the three media prefixes, and "application/pdf", apart. */
  lemma MediaPrefixHeads(mimeType: string)
    ensures StartsWith(mimeType, "video/") ==> |mimeType| >= 6 && mimeType[0] == 'v'
    ensures StartsWith(mimeType, "image/") ==> |mimeType| >= 6 && mimeType[0] == 'i'
    ensures StartsWith(mimeType, "audio/") ==> |mimeType| >= 6 && mimeType[0] == 'a' && mimeType[1] == 'u'
  {
  }

  /**
   * The category of a MIME type. Only the exact string "application/pdf" is a
   * document; "video/", "image/" and "audio/" are prefix tests; the rest is "other".
   * Each category is characterised on its own, so the ensures clauses also say
   * that the three prefix tests never compete.
   */
  function GetCategoryFromMimeType(mimeType: string): (category: string)
    ensures category in FileCategories
    ensures category == "document" <==> mimeType == "application/pdf"
    ensures category == "video" <==> StartsWith(mimeType, "video/")
    ensures category == "image" <==> StartsWith(mimeType, "image/")
    ensures category == "audio" <==> StartsWith(mimeType, "audio/")
    ensures category == "other" <==>
      mimeType != "application/pdf" && !StartsWith(mimeType, "video/")
      && !StartsWith(mimeType, "image/") && !StartsWith(mimeType, "audio/")
  {
    MediaPrefixHeads(mimeType);
    if mimeType == "application/pdf" then "document"
    else if StartsWith(mimeType, "video/") then "video"
    else if StartsWith(mimeType, "image/") then "image"
    else if StartsWith(mimeType, "audio/") then "audio"
    else "other"
  }

  /** At most one of the three media prefixes can hold of a MIME type. */
  lemma MediaPrefixesExclusive(mimeType: string)
    ensures !(StartsWith(mimeType, "video/") && StartsWith(mimeType, "image/"))
    ensures !(StartsWith(mimeType, "video/") && StartsWith(mimeType, "audio/"))
    ensures !(StartsWith(mimeType, "image/") && StartsWith(mimeType, "audio/"))
  {
  }

  /**
   * The pdf test is an exact match and the prefix tests are case-sensitive:
   * other application types, a pdf type with parameters and upper-case media
   * types are all "other".
   */
  lemma ClassifierExamples()
    ensures GetCategoryFromMimeType("application/pdf") == "document"
    ensures GetCategoryFromMimeType("video/mp4") == "video"
    ensures GetCategoryFromMimeType("image/png") == "image"
    ensures GetCategoryFromMimeType("audio/mp3") == "audio"
    ensures GetCategoryFromMimeType("application/zip") == "other"
    ensures GetCategoryFromMimeType("application/pdf; charset=binary") == "other"
    ensures GetCategoryFromMimeType("Video/mp4") == "other"
    ensures GetCategoryFromMimeType("video") == "other"
  {
    MediaPrefixHeads("application/zip");
    MediaPrefixHeads("application/pdf; charset=binary");
    MediaPrefixHeads("Video/mp4");
    MediaPrefixHeads("video");
    assert StartsWith("video/mp4", "video/");
    assert StartsWith("image/png", "image/");
    assert StartsWith("audio/mp3", "audio/");
  }

  /**
   * The category key of a dashboard page name: the four plural names map to
   * their singular category, every other name is passed through unchanged.
   */
  function GeneratePageKey(page: string): (key: string)
    ensures page in PluralPageNames ==> key == PluralPageNames[page] && key in FileCategories
    ensures page !in PluralPageNames ==> key == page
    ensures key !in PluralPageNames
  {
    if page == "documents" then "document"
    else if page == "images" then "image"
    else if page == "videos" then "video"
    else if page == "others" then "other"
    else page
  }

  /** Names outside the plural four, such as "all", "shared" and "audio", come back as they are. */
  lemma PageKeyPassThroughExamples()
    ensures GeneratePageKey("all") == "all"
    ensures GeneratePageKey("shared") == "shared"
    ensures GeneratePageKey("audio") == "audio"
    ensures GeneratePageKey("document") == "document"
  {
  }

  /** Applying the page-key mapping twice is the same as applying it once. */
  lemma GeneratePageKeyIdempotent(page: string)
    ensures GeneratePageKey(GeneratePageKey(page)) == GeneratePageKey(page)
  {
  }

  /** Every category the classifier produces is a fixpoint of the page-key mapping. */
  lemma CategoryIsPageKeyFixpoint(mimeType: string)
    ensures GeneratePageKey(GetCategoryFromMimeType(mimeType)) == GetCategoryFromMimeType(mimeType)
  {
  }
}
