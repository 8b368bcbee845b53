/** Hosted answer pages: the two documents built for one answer (a preview
    carrying a share button, and a share page carrying the question), the
    share path, and the local images a share page refers to. */
module PagePublisher {
  import opened Common
  import opened UrlBuilder

  const DefaultTitle := "AI 回复预览"
  const PreviewTitle := "AI 回复预览"
  const ShareTitle := "AI 回复分享"
  const QuestionPanelOpen := "<section class=\"question-panel\">\n        <h2>🙋 提问记录</h2>\n        "
  const QuestionPanelClose := "\n      </section>"
  const ShareButtonOpen := "<section class=\"share-panel\">\n        <button id=\"copy-share\" data-share-link=\""
  const ShareButtonClose := "\">📤 复制分享链接</button>\n      </section>"

  /** The options of one document; an absent value is None. */
  datatype PageOptions = PageOptions(
    model: string,
    shareLink: Option<string>,
    questionHtml: Option<string>,
    pageTitle: Option<string>)

  /** The parts of a document that vary; the fixed markup, styles and
      scripts around them are not modelled. `copyScript` says whether the
      copy-to-clipboard script is included. */
  datatype HtmlDocument = HtmlDocument(
    title: string,
    model: string,
    timestamp: string,
    questionSection: string,
    content: string,
    shareSection: string,
    copyScript: bool)

  /** A template option is used only when it is truthy: set and non-empty. */
  predicate Present(value: Option<string>) {
    value.Some? && value.value != []
  }

  function QuestionSection(questionHtml: Option<string>): string {
    if Present(questionHtml) then QuestionPanelOpen + questionHtml.value + QuestionPanelClose else ""
  }

  function ShareSection(shareLink: Option<string>): string {
    if Present(shareLink) then ShareButtonOpen + shareLink.value + ShareButtonClose else ""
  }

  /** `buildHtmlDocument()`, with the clock reading as a parameter: the
      title or its default, the question panel when there is a question, and
      the share button with its script when there is a share link. */
  function BuildHtmlDocument(content: string, options: PageOptions, timestamp: string): (d: HtmlDocument)
    ensures d.title == if options.pageTitle.Some? then options.pageTitle.value else DefaultTitle
    ensures d.content == content && d.model == options.model && d.timestamp == timestamp
    ensures d.questionSection != [] <==> Present(options.questionHtml)
    ensures Present(options.questionHtml) ==>
      d.questionSection == QuestionPanelOpen + options.questionHtml.value + QuestionPanelClose
    ensures d.shareSection != [] <==> Present(options.shareLink)
    ensures d.copyScript <==> Present(options.shareLink)
    ensures Present(options.shareLink) ==>
      d.shareSection == ShareButtonOpen + options.shareLink.value + ShareButtonClose
  {
    HtmlDocument(
      options.pageTitle.GetOr(DefaultTitle),
      options.model,
      timestamp,
      QuestionSection(options.questionHtml),
      content,
      ShareSection(options.shareLink),
      Present(options.shareLink))
  }

  /** The file name an `img` source contributes: the last `/` piece of a
      source under `/img/`, when that piece is not empty. */
  function ImageFileOf(src: string): (f: Option<string>)
    ensures f.Some? ==> StartsWith(src, "/img/") && f.value != [] && '/' !in f.value && EndsWith(src, f.value)
    ensures f.Some? ==> |f.value| < |src| && src[|src| - |f.value| - 1] == '/'
    ensures f.None? <==> !StartsWith(src, "/img/") || LastSegment(src, '/') == []
  {
    if src == [] || !StartsWith(src, "/img/") then None
    else
      LastSegmentIsSuffix(src, '/');
      var name := LastSegment(src, '/');
      if name == [] then None else Some(name)
  }

  /** The distinct file names of a list of sources, each placed where it
      first occurs. */
  function LocalImageFiles(srcs: seq<string>): (r: seq<string>)
    ensures NoDuplicates(r)
    ensures forall k :: 0 <= k < |r| ==> r[k] != [] && '/' !in r[k]
  {
    if srcs == [] then []
    else
      var prior := LocalImageFiles(srcs[..|srcs| - 1]);
      var f := ImageFileOf(srcs[|srcs| - 1]);
      if f.Some? && f.value !in prior then prior + [f.value] else prior
  }

  /** A name is listed exactly when some source contributes it. */
  lemma {:induction false} LocalImageFilesMembership(srcs: seq<string>)
    ensures forall name :: name in LocalImageFiles(srcs) <==>
      exists i :: 0 <= i < |srcs| && ImageFileOf(srcs[i]) == Some(name)
  {
    if srcs != [] {
      var init := srcs[..|srcs| - 1];
      LocalImageFilesMembership(init);
      assert forall i :: 0 <= i < |init| ==> init[i] == srcs[i];
    }
  }

  /** Some source contributing `x` comes before every source contributing `y`. */
  predicate FirstBefore(srcs: seq<string>, x: string, y: string) {
    exists k :: 0 <= k < |srcs| && ImageFileOf(srcs[k]) == Some(x) &&
      forall m :: 0 <= m <= k ==> ImageFileOf(srcs[m]) != Some(y)
  }

  /** The list keeps first-occurrence order. */
  lemma {:induction false} LocalImageFilesOrder(srcs: seq<string>)
    ensures forall a, b :: 0 <= a < b < |LocalImageFiles(srcs)| ==>
      FirstBefore(srcs, LocalImageFiles(srcs)[a], LocalImageFiles(srcs)[b])
  {
    if srcs != [] {
      var init := srcs[..|srcs| - 1];
      var prior := LocalImageFiles(init);
      var r := LocalImageFiles(srcs);
      LocalImageFilesOrder(init);
      LocalImageFilesMembership(init);
      assert forall i :: 0 <= i < |init| ==> init[i] == srcs[i];
      forall a, b | 0 <= a < b < |r| ensures FirstBefore(srcs, r[a], r[b]) {
        assert r[a] == prior[a];
        if b < |prior| {
          assert r[b] == prior[b];
          assert FirstBefore(init, prior[a], prior[b]);
          var k :| 0 <= k < |init| && ImageFileOf(init[k]) == Some(prior[a]) &&
            forall m :: 0 <= m <= k ==> ImageFileOf(init[m]) != Some(prior[b]);
          assert ImageFileOf(srcs[k]) == Some(r[a]);
        } else {
          assert r[b] !in prior;
          assert prior[a] in prior;
          var k :| 0 <= k < |init| && ImageFileOf(init[k]) == Some(prior[a]);
          assert ImageFileOf(srcs[k]) == Some(r[a]);
          forall m | 0 <= m <= k ensures ImageFileOf(srcs[m]) != Some(r[b]) {
            assert srcs[m] == init[m];
          }
        }
      }
    }
  }

  /** `extractLocalImageFiles()`, over the `src` values the image pattern
      captures: collects each contributed file name once, in the order of
      first occurrence. */
  method ExtractLocalImageFiles(srcs: seq<string>) returns (files: seq<string>)
    ensures files == LocalImageFiles(srcs)
  {
    files := [];
    var i := 0;
    while i < |srcs|
      invariant 0 <= i <= |srcs|
      invariant files == LocalImageFiles(srcs[..i])
    {
      assert srcs[..i + 1][..i] == srcs[..i];
      var src := srcs[i];
      if src != [] && StartsWith(src, "/img/") {
        var name := LastSegment(src, '/');
        if name != [] && name !in files {
          files := files + [name];
        }
      }
      i := i + 1;
    }
    assert srcs[..i] == srcs;
  }

  /** What the share metadata records. */
  datatype ShareMetadata = ShareMetadata(shareId: string, htmlRelativePath: string, imageFiles: seq<string>)

  datatype PublishResult = PublishResult(previewUrl: string, shareUrl: string, shareId: string)

  /** Everything one publication writes and returns. */
  datatype Publication = Publication(
    preview: HtmlDocument,
    share: HtmlDocument,
    metadata: ShareMetadata,
    result: PublishResult)

  function SharePath(shareId: string): string {
    "/share/" + shareId
  }

  /** `publishRenderedPage()`, with the generated id, the clock reading, the
      paths the page store chose, the request's URL base and the image
      pattern's captures as parameters. */
  method PublishRenderedPage(
      htmlContent: string, model: string, questionHtml: string,
      shareId: string, timestamp: string, previewPath: string, sharePagePath: string,
      publicBaseUrl: Option<string>, origin: RequestOrigin, imageSources: string -> seq<string>)
    returns (p: Publication)
    ensures p.result.shareId == shareId && p.metadata.shareId == shareId
    ensures p.result.shareUrl == BuildPublicAssetUrl(publicBaseUrl, origin.protocol, origin.host, SharePath(shareId))
    ensures p.result.previewUrl == BuildPublicAssetUrl(publicBaseUrl, origin.protocol, origin.host, previewPath)
    ensures p.preview.title == PreviewTitle && p.share.title == ShareTitle
    ensures p.preview.content == htmlContent && p.share.content == htmlContent
    ensures p.preview.questionSection == [] && p.preview.copyScript
    ensures p.preview.shareSection == ShareButtonOpen + p.result.shareUrl + ShareButtonClose
    ensures p.share.shareSection == [] && !p.share.copyScript
    ensures p.share.questionSection != [] <==> questionHtml != []
    ensures p.metadata.htmlRelativePath == sharePagePath
    ensures p.metadata.imageFiles == LocalImageFiles(imageSources(questionHtml + htmlContent))
  {
    var shareUrl := BuildPublicAssetUrl(publicBaseUrl, origin.protocol, origin.host, SharePath(shareId));
    BuildPublicAssetUrlShape(publicBaseUrl, origin.protocol, origin.host, SharePath(shareId));
    var preview := BuildHtmlDocument(htmlContent, PageOptions(model, Some(shareUrl), None, Some(PreviewTitle)), timestamp);
    var share := BuildHtmlDocument(htmlContent, PageOptions(model, None, Some(questionHtml), Some(ShareTitle)), timestamp);
    var imageFiles := ExtractLocalImageFiles(imageSources(questionHtml + htmlContent));
    var previewUrl := BuildPublicAssetUrl(publicBaseUrl, origin.protocol, origin.host, previewPath);
    p := Publication(preview, share, ShareMetadata(shareId, sharePagePath, imageFiles),
      PublishResult(previewUrl, shareUrl, shareId));
  }
}
