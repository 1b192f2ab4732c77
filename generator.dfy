/**
 * The asset generator (src/generator.js): from one source image and a few
 * branding parameters it writes twelve files into an output directory.
 *
 * Every pixel operation belongs to an image library and every container
 * format to an ICO packer; here each such result is an `Artifact` value that
 * records WHAT was asked of the library (target size, flatten colour,
 * threshold), not the bytes it produced. The text files are built exactly.
 */
module Generator {
  import opened Wrappers
  import opened Strings
  import opened Directory

  // ---------------------------------------------------------------------------
  // File names, in the order generateAssets writes them
  // ---------------------------------------------------------------------------

  const APPLE_TOUCH_ICON := "apple-touch-icon.png"
  const ANDROID_192 := "android-chrome-192x192.png"
  const ANDROID_512 := "android-chrome-512x512.png"
  const MSTILE_150 := "mstile-150x150.png"
  const FAVICON_16 := "favicon-16x16.png"
  const FAVICON_32 := "favicon-32x32.png"
  const FAVICON_ICO := "favicon.ico"
  const SAFARI_PINNED_TAB := "safari-pinned-tab.svg"
  const MANIFEST_JSON := "manifest.json"
  const SITE_WEBMANIFEST := "site.webmanifest"
  const BROWSER_CONFIG_XML := "browserconfig.xml"
  const META_TAGS_HTML := "meta-tags.html"

  /** The twelve outputs. */
  datatype OutputFile =
    | AppleTouchIcon | Android192 | Android512 | MsTile150 | Favicon16 | Favicon32
    | FaviconIco | SafariPinnedTab | ManifestJson | SiteWebmanifest | BrowserConfigXml | MetaTagsHtml

  function FileName(f: OutputFile): string {
    match f
    case AppleTouchIcon => APPLE_TOUCH_ICON
    case Android192 => ANDROID_192
    case Android512 => ANDROID_512
    case MsTile150 => MSTILE_150
    case Favicon16 => FAVICON_16
    case Favicon32 => FAVICON_32
    case FaviconIco => FAVICON_ICO
    case SafariPinnedTab => SAFARI_PINNED_TAB
    case ManifestJson => MANIFEST_JSON
    case SiteWebmanifest => SITE_WEBMANIFEST
    case BrowserConfigXml => BROWSER_CONFIG_XML
    case MetaTagsHtml => META_TAGS_HTML
  }

  /** The order in which generateAssets writes its outputs. */
  const WRITE_ORDER: seq<OutputFile> := [
    AppleTouchIcon, Android192, Android512, MsTile150, Favicon16, Favicon32,
    FaviconIco, SafariPinnedTab, ManifestJson, SiteWebmanifest, BrowserConfigXml, MetaTagsHtml
  ]

  /** The sizes packed into favicon.ico, in order. */
  const ICO_SIZES: seq<nat> := [16, 32, 48]
  /** Size and luminance cutoff of the raster silhouette in the pinned-tab SVG. */
  const PINNED_TAB_SIZE: nat := 512
  const PINNED_TAB_THRESHOLD: nat := 200

  // ---------------------------------------------------------------------------
  // Data model
  // ---------------------------------------------------------------------------

  /**
   * One PNG the image library encodes from the source image: resized to
   * size x size with fit "contain" on a transparent background, then, when
   * `flatten` holds a colour, composited onto that colour.
   */
  datatype Png = Png(size: nat, flatten: Option<string>)

  /** The image inside the pinned-tab wrapper: the source resized with transparent padding and thresholded. */
  datatype Payload = ThresholdedPng(size: nat, cutoff: nat)

  datatype Icon = Icon(src: string, sizes: string, mime: string)

  /** The web app manifest as a record; JSON.stringify turns it into the text in the file. */
  datatype Manifest = Manifest(
    name: string,
    shortName: string,
    icons: seq<Icon>,
    themeColor: string,
    backgroundColor: string,
    display: string,
    startUrl: string,
    scope: string)

  /** What ends up in one output file. */
  datatype Artifact =
    | Raster(png: Png)                // one resized PNG
    | Ico(buffers: seq<Png>)          // png-to-ico applied to these PNG buffers, in order
    | CopyOf(source: string)          // a byte copy of the file at `source`
    | SvgWrap(payload: Payload)       // PinnedTabSvg of the base64 text of the payload's PNG
    | Json(manifest: Manifest)        // the serialised manifest
    | BrowserConfigFile(tileColor: string)              // BrowserConfig(tileColor), as text
    | MetaTagsFile(appName: string, themeColor: string)  // MetaTags(appName, themeColor), as text

  /** The parameters generateAssets receives; the optional ones may be absent or empty. */
  datatype AssetParams = AssetParams(
    inputPath: string,
    outputDir: string,
    appName: Option<string>,
    shortName: Option<string>,
    themeColor: Option<string>,
    backgroundColor: Option<string>)

  /** The four branding values once the `||` defaults have been applied. */
  datatype Settings = Settings(appName: string, shortName: string, themeColor: string, backgroundColor: string)

  // ---------------------------------------------------------------------------
  // Defaulting
  // ---------------------------------------------------------------------------

  const DEFAULT_APP_NAME := "Website"
  const DEFAULT_SHORT_NAME := "App"
  const DEFAULT_COLOR := "#ffffff"

  function ResolveDefaults(p: AssetParams): Settings {
    Settings(
      Or(p.appName, DEFAULT_APP_NAME),
      Or(p.shortName, DEFAULT_SHORT_NAME),
      Or(p.themeColor, DEFAULT_COLOR),
      Or(p.backgroundColor, DEFAULT_COLOR))
  }

  /** A value that is present and non-empty is kept as it is. */
  lemma DefaultsKeepGivenValues(p: AssetParams)
    ensures Truthy(p.appName) ==> ResolveDefaults(p).appName == p.appName.value
    ensures Truthy(p.shortName) ==> ResolveDefaults(p).shortName == p.shortName.value
    ensures Truthy(p.themeColor) ==> ResolveDefaults(p).themeColor == p.themeColor.value
    ensures Truthy(p.backgroundColor) ==> ResolveDefaults(p).backgroundColor == p.backgroundColor.value
  {
  }

  /** A value that is absent or empty is replaced by its default; the result is never empty. */
  lemma DefaultsFillMissing(p: AssetParams)
    ensures p.appName in {None, Some("")} ==> ResolveDefaults(p).appName == "Website"
    ensures p.shortName in {None, Some("")} ==> ResolveDefaults(p).shortName == "App"
    ensures p.themeColor in {None, Some("")} ==> ResolveDefaults(p).themeColor == "#ffffff"
    ensures p.backgroundColor in {None, Some("")} ==> ResolveDefaults(p).backgroundColor == "#ffffff"
    ensures var s := ResolveDefaults(p);
      s.appName != "" && s.shortName != "" && s.themeColor != "" && s.backgroundColor != ""
  {
  }

  /** Settings handed in again come out unchanged. */
  lemma DefaultsIdempotent(p: AssetParams)
    ensures var s := ResolveDefaults(p);
      ResolveDefaults(AssetParams(p.inputPath, p.outputDir, Some(s.appName), Some(s.shortName),
                                  Some(s.themeColor), Some(s.backgroundColor))) == s
  {
  }

  // ---------------------------------------------------------------------------
  // Text builders
  // ---------------------------------------------------------------------------

  /** An HTML/XML attribute `name="value"`. */
  function Attr(name: string, value: string): string {
    name + "=\"" + value + "\""
  }

  const TILE_OPEN := "<TileColor>"
  const TILE_CLOSE := "</TileColor>"
  const BROWSER_CONFIG_PROLOG := "<?xml version=\"1.0\" encoding=\"utf-8\"?>\n<browserconfig>\n  <msapplication>\n    <tile>\n      <square150x150logo "
  const BROWSER_CONFIG_LOGO_END := "/>\n      "
  const BROWSER_CONFIG_EPILOG := "\n    </tile>\n  </msapplication>\n</browserconfig>\n"
  const BROWSER_CONFIG_HEAD := BROWSER_CONFIG_PROLOG + Attr("src", MSTILE_150) + BROWSER_CONFIG_LOGO_END + TILE_OPEN
  const BROWSER_CONFIG_TAIL := TILE_CLOSE + BROWSER_CONFIG_EPILOG

  /** The text of browserconfig.xml: the fixed skeleton with the tile colour filled in. */
  function BrowserConfig(tileColor: string): string {
    BROWSER_CONFIG_HEAD + tileColor + BROWSER_CONFIG_TAIL
  }

  /** Reads the tile colour back out of a browserconfig.xml text. */
  function TileColorOf(xml: string): Option<string> {
    Between(xml, BROWSER_CONFIG_HEAD, BROWSER_CONFIG_TAIL)
  }

  /** The tile colour is the only variable part: it can be read back, so distinct colours give distinct files. */
  lemma BrowserConfigRoundTrip(tileColor: string)
    ensures TileColorOf(BrowserConfig(tileColor)) == Some(tileColor)
  {
    BetweenRoundTrip(BROWSER_CONFIG_HEAD, tileColor, BROWSER_CONFIG_TAIL);
  }

  /** The two elements of a skeleton `prolog logo logoEnd open t close epilog` that the proofs name. */
  lemma SkeletonContains(prolog: string, logo: string, logoEnd: string, open: string, t: string, close: string, epilog: string)
    ensures Contains(prolog + logo + logoEnd + open + t + (close + epilog), open + t + close)
    ensures Contains(prolog + logo + logoEnd + open + t + (close + epilog), logo)
  {
    var whole := prolog + logo + logoEnd + open + t + (close + epilog);
    assert whole == (prolog + logo + logoEnd) + (open + t + close) + epilog;
    ContainsMiddle(prolog + logo + logoEnd, open + t + close, epilog);
    assert whole == prolog + logo + (logoEnd + open + t + (close + epilog));
    ContainsMiddle(prolog, logo, logoEnd + open + t + (close + epilog));
  }

  /** The colour stands between `<TileColor>` and `</TileColor>`. */
  lemma BrowserConfigTile(tileColor: string)
    ensures Contains(BrowserConfig(tileColor), TILE_OPEN + tileColor + TILE_CLOSE)
  {
    SkeletonContains(BROWSER_CONFIG_PROLOG, Attr("src", MSTILE_150), BROWSER_CONFIG_LOGO_END, TILE_OPEN, tileColor, TILE_CLOSE, BROWSER_CONFIG_EPILOG);
  }

  /** The tile logo is mstile-150x150.png. */
  lemma BrowserConfigLogo(tileColor: string)
    ensures Contains(BrowserConfig(tileColor), Attr("src", MSTILE_150))
  {
    SkeletonContains(BROWSER_CONFIG_PROLOG, Attr("src", MSTILE_150), BROWSER_CONFIG_LOGO_END, TILE_OPEN, tileColor, TILE_CLOSE, BROWSER_CONFIG_EPILOG);
  }

  lemma BrowserConfigElements(tileColor: string)
    ensures Contains(BrowserConfig(tileColor), TILE_OPEN + tileColor + TILE_CLOSE)
    ensures Contains(BrowserConfig(tileColor), Attr("src", MSTILE_150))
  {
    BrowserConfigTile(tileColor);
    BrowserConfigLogo(tileColor);
  }

  /** The attributes of a tag, each written `name="value"`, in order. */
  function AttrTexts(attrs: seq<(string, string)>): seq<string> {
    seq(|attrs|, k requires 0 <= k < |attrs| => Attr(attrs[k].0, attrs[k].1))
  }

  /** An opening tag `<element name="value" ...>` with at least one attribute, as every line of meta-tags.html is. */
  function Tag(element: string, attrs: seq<(string, string)>): string {
    "<" + element + " " + Join(AttrTexts(attrs), " ") + ">"
  }

  /** Every attribute of a tag occurs in it verbatim. */
  lemma TagContains(element: string, attrs: seq<(string, string)>, k: nat)
    requires k < |attrs|
    ensures Contains(Tag(element, attrs), Attr(attrs[k].0, attrs[k].1))
  {
    var texts := AttrTexts(attrs);
    ContainsJoinPart(texts, " ", k);
    ContainsExtend(Join(texts, " "), texts[k], "<" + element + " ", ">");
  }

  /** No attribute name or value holds `c`. */
  predicate AttrsAvoid(attrs: seq<(string, string)>, c: char) {
    forall k :: 0 <= k < |attrs| ==> c !in attrs[k].0 && c !in attrs[k].1
  }

  /** A tag holds no line break when its element name and attributes hold none. */
  lemma TagFreeOfNewlines(element: string, attrs: seq<(string, string)>)
    requires '\n' !in element && AttrsAvoid(attrs, '\n')
    ensures '\n' !in Tag(element, attrs)
  {
    var texts := AttrTexts(attrs);
    forall k | 0 <= k < |texts| ensures '\n' !in texts[k] {
      assert '\n' !in attrs[k].0 && '\n' !in attrs[k].1;
    }
    JoinAvoids(texts, " ", '\n');
  }

  // The nine lines of meta-tags.html that do not depend on the parameters.
  const LINK_FAVICON_ICO_ATTRS := [("rel", "icon"), ("href", FAVICON_ICO), ("sizes", "16x16 32x32 48x48")]
  const LINK_FAVICON_16_ATTRS := [("rel", "icon"), ("type", "image/png"), ("sizes", "16x16"), ("href", FAVICON_16)]
  const LINK_FAVICON_32_ATTRS := [("rel", "icon"), ("type", "image/png"), ("sizes", "32x32"), ("href", FAVICON_32)]
  const LINK_APPLE_TOUCH_ICON_ATTRS := [("rel", "apple-touch-icon"), ("sizes", "180x180"), ("href", APPLE_TOUCH_ICON)]
  const LINK_ANDROID_192_ATTRS := [("rel", "icon"), ("type", "image/png"), ("sizes", "192x192"), ("href", ANDROID_192)]
  const LINK_ANDROID_512_ATTRS := [("rel", "icon"), ("type", "image/png"), ("sizes", "512x512"), ("href", ANDROID_512)]
  const LINK_MANIFEST_ATTRS := [("rel", "manifest"), ("href", MANIFEST_JSON)]
  const LINK_WEBMANIFEST_ATTRS := [("rel", "manifest"), ("href", SITE_WEBMANIFEST)]
  const META_CONFIG_ATTRS := [("name", "msapplication-config"), ("content", BROWSER_CONFIG_XML)]

  // The four lines that carry a parameter.
  function MaskIconAttrs(themeColor: string): seq<(string, string)> {
    [("rel", "mask-icon"), ("href", SAFARI_PINNED_TAB), ("color", themeColor)]
  }

  function AppNameAttrs(appName: string): seq<(string, string)> {
    [("name", "application-name"), ("content", appName)]
  }

  function ThemeColorAttrs(themeColor: string): seq<(string, string)> {
    [("name", "theme-color"), ("content", themeColor)]
  }

  function TileColorAttrs(themeColor: string): seq<(string, string)> {
    [("name", "msapplication-TileColor"), ("content", themeColor)]
  }

  /** The thirteen lines of meta-tags.html, in order. */
  function MetaTagLines(appName: string, themeColor: string): seq<string> {
    [
      Tag("link", LINK_FAVICON_ICO_ATTRS), Tag("link", LINK_FAVICON_16_ATTRS), Tag("link", LINK_FAVICON_32_ATTRS),
      Tag("link", LINK_APPLE_TOUCH_ICON_ATTRS), Tag("link", LINK_ANDROID_192_ATTRS), Tag("link", LINK_ANDROID_512_ATTRS),
      Tag("link", LINK_MANIFEST_ATTRS), Tag("link", LINK_WEBMANIFEST_ATTRS), Tag("link", MaskIconAttrs(themeColor)),
      Tag("meta", AppNameAttrs(appName)), Tag("meta", ThemeColorAttrs(themeColor)), Tag("meta", TileColorAttrs(themeColor)),
      Tag("meta", META_CONFIG_ATTRS)
    ]
  }

  /** The text of meta-tags.html: the lines joined with newlines, plus a final newline. */
  function MetaTags(appName: string, themeColor: string): string {
    Join(MetaTagLines(appName, themeColor), "\n") + "\n"
  }

  /** Lines 9, 11 and 12 carry the theme colour and line 10 the application name, each verbatim. */
  lemma MetaTagsEmbedParameters(appName: string, themeColor: string)
    ensures |MetaTagLines(appName, themeColor)| == 13
    ensures Contains(MetaTagLines(appName, themeColor)[8], Attr("color", themeColor))
    ensures Contains(MetaTagLines(appName, themeColor)[9], Attr("content", appName))
    ensures Contains(MetaTagLines(appName, themeColor)[10], Attr("content", themeColor))
    ensures Contains(MetaTagLines(appName, themeColor)[11], Attr("content", themeColor))
  {
    TagContains("link", MaskIconAttrs(themeColor), 2);
    TagContains("meta", AppNameAttrs(appName), 1);
    TagContains("meta", ThemeColorAttrs(themeColor), 1);
    TagContains("meta", TileColorAttrs(themeColor), 1);
  }

  /** The nine other lines are constants: they are the same whatever the name and colour. */
  lemma MetaTagsConstantLines(appName: string, themeColor: string, appName': string, themeColor': string)
    ensures forall i :: (0 <= i < 8 || i == 12) ==>
      MetaTagLines(appName, themeColor)[i] == MetaTagLines(appName', themeColor')[i]
  {
  }

  /** The files lines 1 to 9 link to, in line order. */
  const META_TAG_LINKS: seq<OutputFile> := [
    FaviconIco, Favicon16, Favicon32, AppleTouchIcon, Android192, Android512,
    ManifestJson, SiteWebmanifest, SafariPinnedTab
  ]

  lemma IconLinkTargets(appName: string, themeColor: string)
    ensures forall k :: 0 <= k < 6 ==>
      Contains(MetaTagLines(appName, themeColor)[k], Attr("href", FileName(META_TAG_LINKS[k])))
  {
    TagContains("link", LINK_FAVICON_ICO_ATTRS, 1);
    TagContains("link", LINK_FAVICON_16_ATTRS, 3);
    TagContains("link", LINK_FAVICON_32_ATTRS, 3);
    TagContains("link", LINK_APPLE_TOUCH_ICON_ATTRS, 2);
    TagContains("link", LINK_ANDROID_192_ATTRS, 3);
    TagContains("link", LINK_ANDROID_512_ATTRS, 3);
  }

  /** Line k (k < 9) carries `href="..."` for the k-th linked file; line 13 names browserconfig.xml. */
  lemma MetaTagsLinkTargets(appName: string, themeColor: string)
    ensures forall k :: 0 <= k < |META_TAG_LINKS| ==>
      Contains(MetaTagLines(appName, themeColor)[k], Attr("href", FileName(META_TAG_LINKS[k])))
    ensures Contains(MetaTagLines(appName, themeColor)[12], Attr("content", BROWSER_CONFIG_XML))
  {
    IconLinkTargets(appName, themeColor);
    TagContains("link", LINK_MANIFEST_ATTRS, 1);
    TagContains("link", LINK_WEBMANIFEST_ATTRS, 1);
    TagContains("link", MaskIconAttrs(themeColor), 1);
    TagContains("meta", META_CONFIG_ATTRS, 1);
  }

  // Each line of meta-tags.html is free of line breaks (one lemma per line keeps each proof small).

  lemma FaviconIcoLineFreeOfNewlines()
    ensures '\n' !in Tag("link", LINK_FAVICON_ICO_ATTRS)
  {
    TagFreeOfNewlines("link", LINK_FAVICON_ICO_ATTRS);
  }

  lemma Favicon16LineFreeOfNewlines()
    ensures '\n' !in Tag("link", LINK_FAVICON_16_ATTRS)
  {
    TagFreeOfNewlines("link", LINK_FAVICON_16_ATTRS);
  }

  lemma Favicon32LineFreeOfNewlines()
    ensures '\n' !in Tag("link", LINK_FAVICON_32_ATTRS)
  {
    TagFreeOfNewlines("link", LINK_FAVICON_32_ATTRS);
  }

  lemma AppleTouchIconLineFreeOfNewlines()
    ensures '\n' !in Tag("link", LINK_APPLE_TOUCH_ICON_ATTRS)
  {
    TagFreeOfNewlines("link", LINK_APPLE_TOUCH_ICON_ATTRS);
  }

  lemma Android192LineFreeOfNewlines()
    ensures '\n' !in Tag("link", LINK_ANDROID_192_ATTRS)
  {
    TagFreeOfNewlines("link", LINK_ANDROID_192_ATTRS);
  }

  lemma Android512LineFreeOfNewlines()
    ensures '\n' !in Tag("link", LINK_ANDROID_512_ATTRS)
  {
    TagFreeOfNewlines("link", LINK_ANDROID_512_ATTRS);
  }

  lemma ManifestLineFreeOfNewlines()
    ensures '\n' !in Tag("link", LINK_MANIFEST_ATTRS)
  {
    TagFreeOfNewlines("link", LINK_MANIFEST_ATTRS);
  }

  lemma WebmanifestLineFreeOfNewlines()
    ensures '\n' !in Tag("link", LINK_WEBMANIFEST_ATTRS)
  {
    TagFreeOfNewlines("link", LINK_WEBMANIFEST_ATTRS);
  }

  lemma MaskIconLineFreeOfNewlines(themeColor: string)
    requires '\n' !in themeColor
    ensures '\n' !in Tag("link", MaskIconAttrs(themeColor))
  {
    TagFreeOfNewlines("link", MaskIconAttrs(themeColor));
  }

  lemma AppNameLineFreeOfNewlines(appName: string)
    requires '\n' !in appName
    ensures '\n' !in Tag("meta", AppNameAttrs(appName))
  {
    TagFreeOfNewlines("meta", AppNameAttrs(appName));
  }

  lemma ThemeColorLineFreeOfNewlines(themeColor: string)
    requires '\n' !in themeColor
    ensures '\n' !in Tag("meta", ThemeColorAttrs(themeColor))
  {
    TagFreeOfNewlines("meta", ThemeColorAttrs(themeColor));
  }

  lemma TileColorLineFreeOfNewlines(themeColor: string)
    requires '\n' !in themeColor
    ensures '\n' !in Tag("meta", TileColorAttrs(themeColor))
  {
    TagFreeOfNewlines("meta", TileColorAttrs(themeColor));
  }

  lemma ConfigLineFreeOfNewlines()
    ensures '\n' !in Tag("meta", META_CONFIG_ATTRS)
  {
    TagFreeOfNewlines("meta", META_CONFIG_ATTRS);
  }

  lemma MetaTagLinesFreeOfNewlines(appName: string, themeColor: string)
    requires '\n' !in appName && '\n' !in themeColor
    ensures NoneContains(MetaTagLines(appName, themeColor), '\n')
  {
    FaviconIcoLineFreeOfNewlines();
    Favicon16LineFreeOfNewlines();
    Favicon32LineFreeOfNewlines();
    AppleTouchIconLineFreeOfNewlines();
    Android192LineFreeOfNewlines();
    Android512LineFreeOfNewlines();
    ManifestLineFreeOfNewlines();
    WebmanifestLineFreeOfNewlines();
    MaskIconLineFreeOfNewlines(themeColor);
    AppNameLineFreeOfNewlines(appName);
    ThemeColorLineFreeOfNewlines(themeColor);
    TileColorLineFreeOfNewlines(themeColor);
    ConfigLineFreeOfNewlines();
  }

  /** With a name and colour free of newlines the text has exactly 13 newlines and splits back into the 13 lines. */
  lemma MetaTagsLineStructure(appName: string, themeColor: string)
    requires '\n' !in appName && '\n' !in themeColor
    ensures Count(MetaTags(appName, themeColor), '\n') == 13
    ensures SplitLines(MetaTags(appName, themeColor)) == MetaTagLines(appName, themeColor)
  {
    var lines := MetaTagLines(appName, themeColor);
    MetaTagLinesFreeOfNewlines(appName, themeColor);
    JoinCount(lines, '\n');
    CountConcat(Join(lines, "\n"), "\n", '\n');
    assert Count("\n", '\n') == 1 by {
      assert "\n"[1..] == [];
    }
    SplitJoinedLines(lines);
  }

  /** Every line occurs in the document. */
  lemma MetaTagsContainLine(appName: string, themeColor: string, k: nat)
    requires k < 13
    ensures Contains(MetaTags(appName, themeColor), MetaTagLines(appName, themeColor)[k])
  {
    var lines := MetaTagLines(appName, themeColor);
    var text := Join(lines, "\n");
    assert MetaTags(appName, themeColor) == "" + text + "\n";
    ContainsJoinPart(lines, "\n", k);
    ContainsExtend(text, lines[k], "", "\n");
  }

  /** The document carries the theme colour and the application name as content attributes, and every link target. */
  lemma MetaTagsMentionParameters(appName: string, themeColor: string)
    ensures Contains(MetaTags(appName, themeColor), Attr("content", themeColor))
    ensures Contains(MetaTags(appName, themeColor), Attr("content", appName))
    ensures forall f :: f in META_TAG_LINKS ==> Contains(MetaTags(appName, themeColor), Attr("href", FileName(f)))
  {
    var lines := MetaTagLines(appName, themeColor);
    var doc := MetaTags(appName, themeColor);
    MetaTagsEmbedParameters(appName, themeColor);
    MetaTagsLinkTargets(appName, themeColor);
    MetaTagsContainLine(appName, themeColor, 10);
    ContainsTrans(doc, lines[10], Attr("content", themeColor));
    MetaTagsContainLine(appName, themeColor, 9);
    ContainsTrans(doc, lines[9], Attr("content", appName));
    forall f | f in META_TAG_LINKS ensures Contains(doc, Attr("href", FileName(f))) {
      var k :| 0 <= k < |META_TAG_LINKS| && META_TAG_LINKS[k] == f;
      MetaTagsContainLine(appName, themeColor, k);
      ContainsTrans(doc, lines[k], Attr("href", FileName(f)));
    }
  }

  // ---------------------------------------------------------------------------
  // The web app manifest
  // ---------------------------------------------------------------------------

  /** The `WxH` text of a square size. */
  function SizeText(n: nat): string {
    DecimalText(n) + "x" + DecimalText(n)
  }

  /** The manifest literal of generateAssets. */
  function BuildManifest(s: Settings): Manifest {
    Manifest(
      s.appName,
      s.shortName,
      [Icon(ANDROID_192, "192x192", "image/png"), Icon(ANDROID_512, "512x512", "image/png")],
      s.themeColor,
      s.backgroundColor,
      "standalone",
      "/",
      "/")
  }

  /** The manifest carries the four settings and its fixed fields: standalone display, root start URL and scope, two icons. */
  lemma ManifestFields(s: Settings)
    ensures var m := BuildManifest(s);
      && m.name == s.appName && m.shortName == s.shortName
      && m.themeColor == s.themeColor && m.backgroundColor == s.backgroundColor
      && m.display == "standalone" && m.startUrl == "/" && m.scope == "/"
      && |m.icons| == 2
      && m.icons[0].src == ANDROID_192 && m.icons[0].sizes == SizeText(192)
      && m.icons[1].src == ANDROID_512 && m.icons[1].sizes == SizeText(512)
      && forall i :: 0 <= i < |m.icons| ==> m.icons[i].mime == "image/png"
  {
  }

  // ---------------------------------------------------------------------------
  // The Safari pinned tab
  // ---------------------------------------------------------------------------

  const DATA_URI_PREFIX := "data:image/png;base64,"
  const SVG_DIMENSIONS := Attr("width", "512") + " " + Attr("height", "512") + " " + Attr("viewBox", "0 0 512 512")
  const SVG_PROLOG := "<?xml version=\"1.0\" encoding=\"UTF-8\"?>\n<svg xmlns=\"http://www.w3.org/2000/svg\" "
  const SVG_IMAGE := "\n  <image href=\""
  const SVG_HEAD := SVG_PROLOG + SVG_DIMENSIONS + ">" + (SVG_IMAGE + DATA_URI_PREFIX)
  const SVG_TAIL := "\" width=\"512\" height=\"512\"/>\n</svg>\n"

  /** The SVG document wrapped around the base64 text of the thresholded PNG. */
  function PinnedTabSvg(base64: string): string {
    SVG_HEAD + base64 + SVG_TAIL
  }

  /** Reads the base64 payload back out of a wrapper document. */
  function PayloadOf(svg: string): Option<string> {
    Between(svg, SVG_HEAD, SVG_TAIL)
  }

  lemma PinnedTabSvgRoundTrip(base64: string)
    ensures PayloadOf(PinnedTabSvg(base64)) == Some(base64)
  {
    BetweenRoundTrip(SVG_HEAD, base64, SVG_TAIL);
  }

  lemma WrapperContains(prolog: string, dims: string, image: string, data: string, base64: string, tail: string)
    ensures Contains(prolog + dims + ">" + (image + data) + base64 + tail, dims)
    ensures Contains(prolog + dims + ">" + (image + data) + base64 + tail, data + base64)
  {
    var svg := prolog + dims + ">" + (image + data) + base64 + tail;
    ContainsMiddle(prolog, dims, ">" + (image + data) + base64 + tail);
    assert prolog + dims + (">" + (image + data) + base64 + tail) == svg;
    ContainsMiddle(prolog + dims + ">" + image, data + base64, tail);
    assert prolog + dims + ">" + image + (data + base64) + tail == svg;
  }

  /** The wrapper declares a 512 x 512 canvas and view box and carries the payload as a PNG data URI. */
  lemma PinnedTabSvgDeclarations(base64: string)
    ensures var svg := PinnedTabSvg(base64);
      && Contains(svg, Attr("width", DecimalText(PINNED_TAB_SIZE)))
      && Contains(svg, Attr("height", DecimalText(PINNED_TAB_SIZE)))
      && Contains(svg, Attr("viewBox", "0 0 " + DecimalText(PINNED_TAB_SIZE) + " " + DecimalText(PINNED_TAB_SIZE)))
      && Contains(svg, DATA_URI_PREFIX + base64)
  {
    var svg := PinnedTabSvg(base64);
    assert DecimalText(PINNED_TAB_SIZE) == "512";
    assert "0 0 " + DecimalText(PINNED_TAB_SIZE) + " " + DecimalText(PINNED_TAB_SIZE) == "0 0 512 512";
    WrapperContains(SVG_PROLOG, SVG_DIMENSIONS, SVG_IMAGE, DATA_URI_PREFIX, base64, SVG_TAIL);
    ContainsSpaced(Attr("width", "512"), Attr("height", "512"), Attr("viewBox", "0 0 512 512"));
    ContainsTrans(svg, SVG_DIMENSIONS, Attr("width", "512"));
    ContainsTrans(svg, SVG_DIMENSIONS, Attr("height", "512"));
    ContainsTrans(svg, SVG_DIMENSIONS, Attr("viewBox", "0 0 512 512"));
  }

  /** The length of `p[..e]` once its trailing slashes are removed. */
  function TrimmedEnd(p: string, e: nat): (r: nat)
    requires e <= |p|
    ensures r <= e
    decreases e
  {
    if e > 0 && p[e - 1] == '/' then TrimmedEnd(p, e - 1) else e
  }

  /**
   * `path.extname` on POSIX paths. Trailing slashes are ignored; the last
   * segment runs from just after the last slash to `end`; the extension runs
   * from the segment's last dot to `end`. It is empty when the segment has no
   * dot, when its last dot is its first character, and when it is `..`.
   */
  function Extname(p: string): string {
    var end := TrimmedEnd(p, |p|);
    var start := LastIndexBefore(p, '/', end) + 1;
    var dot := LastIndexBefore(p, '.', end);
    if dot <= start || (end == start + 2 && p[start] == '.' && dot == start + 1) then ""
    else p[dot..end]
  }

  /** An extension is empty, or a dot followed by text with no dot and no slash. */
  lemma ExtnameShape(p: string)
    ensures var ext := Extname(p);
      ext == "" || (ext[0] == '.' && '.' !in ext[1..] && '/' !in ext)
  {
    var end := TrimmedEnd(p, |p|);
    var start := LastIndexBefore(p, '/', end) + 1;
    var dot := LastIndexBefore(p, '.', end);
    if Extname(p) != "" {
      var ext := p[dot..end];
      LastIndexBeforeIsLast(p, '.', end);
      LastIndexBeforeIsLast(p, '/', end);
      forall j | 0 <= j < |ext| ensures ext[j] != '/' && (j > 0 ==> ext[j] != '.') {
        assert ext[j] == p[dot + j];
      }
    }
  }

  /** A case-insensitive `.svg`. */
  predicate IsSvgExtension(ext: string) {
    |ext| == 4 && ext[0] == '.' && ext[1] in "sS" && ext[2] in "vV" && ext[3] in "gG"
  }

  /**
   * What generateSafariPinnedTab writes for the source file at `inputPath`.
   * The test is written letter by letter; LowerIsSvg shows it is the
   * lower-cased comparison with ".svg".
   */
  function PinnedTab(inputPath: string): Artifact {
    if IsSvgExtension(Extname(inputPath)) then CopyOf(inputPath)
    else SvgWrap(ThresholdedPng(PINNED_TAB_SIZE, PINNED_TAB_THRESHOLD))
  }

  lemma LowerIsSvg(ext: string)
    ensures Lower(ext) == ".svg" <==> IsSvgExtension(ext)
  {
    if |ext| == 4 {
      assert Lower(ext) == [LowerChar(ext[0]), LowerChar(ext[1]), LowerChar(ext[2]), LowerChar(ext[3])];
    }
  }

  /** The source is copied exactly when its lower-cased extension is `.svg`; otherwise the 512 px silhouette is wrapped. */
  lemma PinnedTabBranch(inputPath: string)
    ensures PinnedTab(inputPath) == CopyOf(inputPath) <==> Lower(Extname(inputPath)) == ".svg"
    ensures PinnedTab(inputPath) == CopyOf(inputPath) <==> IsSvgExtension(Extname(inputPath))
    ensures !IsSvgExtension(Extname(inputPath)) ==> PinnedTab(inputPath) == SvgWrap(ThresholdedPng(512, 200))
  {
    LowerIsSvg(Extname(inputPath));
  }

  /** `d` names a directory prefix: empty or ending in a slash. */
  predicate DirPrefix(d: string) {
    d == "" || d[|d| - 1] == '/'
  }

  /**
   * For a name without a slash, ending in something else than a slash, in a
   * directory `d`: the trimmed end is the end of the path and the last segment
   * starts right after `d`.
   */
  lemma SegmentOfName(d: string, name: string)
    requires DirPrefix(d) && name != [] && '/' !in name
    ensures var p := d + name;
      TrimmedEnd(p, |p|) == |p| && LastIndexBefore(p, '/', |p|) + 1 == |d|
  {
    var p := d + name;
    assert p[|p| - 1] == name[|name| - 1];
    forall j | |d| <= j < |p| ensures p[j] != '/' {
      assert p[j] == name[j - |d|];
    }
    LastIndexBeforeSkip(p, '/', |p|, |d|);
  }

  /** The last dot of `d + name` below its end lies at `|d| + k` when `name[k]` is the last dot of `name`. */
  lemma LastDotOfName(d: string, name: string, k: nat)
    requires k < |name| && name[k] == '.' && '.' !in name[k + 1..]
    ensures LastIndexBefore(d + name, '.', |d + name|) == |d| + k
  {
    var p := d + name;
    forall j | |d| + k + 1 <= j < |p| ensures p[j] != '.' {
      assert p[j] == name[k + 1..][j - |d| - k - 1];
    }
    LastIndexBeforeSkip(p, '.', |p|, |d| + k + 1);
  }

  /** A file `stem.ext` in any directory has extension `.ext`, the stem being any non-empty text without a slash. */
  lemma ExtnameOfFile(d: string, stem: string, ext: string)
    requires DirPrefix(d) && stem != "" && '/' !in stem
    requires |ext| >= 2 && ext[0] == '.' && '.' !in ext[1..] && '/' !in ext
    ensures Extname(d + (stem + ext)) == ext
  {
    var name := stem + ext;
    var p := d + name;
    assert name[|stem| + 1..] == ext[1..];
    SegmentOfName(d, name);
    LastDotOfName(d, name, |stem|);
    assert p[|d| + |stem|..|p|] == ext;
  }

  /** A dot file such as `.svg` has no extension. */
  lemma ExtnameOfDotFile(d: string, name: string)
    requires DirPrefix(d) && |name| >= 2 && name[0] == '.' && '.' !in name[1..] && '/' !in name
    ensures Extname(d + name) == ""
  {
    SegmentOfName(d, name);
    LastDotOfName(d, name, 0);
  }

  /** A file name without a dot has no extension, whatever the directories above it are called. */
  lemma ExtnameOfPlainName(d: string, name: string)
    requires DirPrefix(d) && name != "" && '.' !in name && '/' !in name
    ensures Extname(d + name) == ""
  {
    var p := d + name;
    SegmentOfName(d, name);
    forall j | |d| <= j < |p| ensures p[j] != '.' {
      assert p[j] == name[j - |d|];
    }
    LastIndexBeforeSkip(p, '.', |p|, |d|);
  }

  /** `dir/logo.svg`, `dir/LOGO.SVG` and any other letter case are copied; `dir/logo.png` is wrapped. */
  lemma PinnedTabOfFile(d: string, stem: string, ext: string)
    requires DirPrefix(d) && stem != "" && '/' !in stem
    requires |ext| >= 2 && ext[0] == '.' && '.' !in ext[1..] && '/' !in ext
    ensures IsSvgExtension(ext) ==> PinnedTab(d + (stem + ext)) == CopyOf(d + (stem + ext))
    ensures !IsSvgExtension(ext) ==> PinnedTab(d + (stem + ext)) == SvgWrap(ThresholdedPng(512, 200))
  {
    ExtnameOfFile(d, stem, ext);
    PinnedTabBranch(d + (stem + ext));
  }

  /** A source called `.svg`, or one without a dot (say in a directory `icons.svg/`), is wrapped, not copied. */
  lemma PinnedTabWithoutExtension(d: string, name: string)
    requires DirPrefix(d) && name != "" && '/' !in name
    requires name == ".svg" || '.' !in name
    ensures PinnedTab(d + name) == SvgWrap(ThresholdedPng(512, 200))
  {
    if name == ".svg" {
      ExtnameOfDotFile(d, name);
    } else {
      ExtnameOfPlainName(d, name);
    }
    PinnedTabBranch(d + name);
  }

  // ---------------------------------------------------------------------------
  // The favicon
  // ---------------------------------------------------------------------------

  /** The PNG buffers generateFaviconIco hands to the ICO packer: one per size, in order, each flattened. */
  method IcoBuffers(backgroundColor: string) returns (buffers: seq<Png>)
    ensures buffers == [Png(16, Some(backgroundColor)), Png(32, Some(backgroundColor)), Png(48, Some(backgroundColor))]
  {
    var sizes := ICO_SIZES;
    buffers := [];
    for k := 0 to |sizes|
      invariant |buffers| == k
      invariant forall j :: 0 <= j < k ==> buffers[j] == Png(sizes[j], Some(backgroundColor))
    {
      buffers := buffers + [Png(sizes[k], Some(backgroundColor))];
    }
  }

  // ---------------------------------------------------------------------------
  // The complete output
  // ---------------------------------------------------------------------------

  /** The standalone PNGs: output, size, and whether it is flattened onto the background colour. */
  const STANDALONE_RASTERS: seq<(OutputFile, nat, bool)> := [
    (AppleTouchIcon, 180, true),
    (Android192, 192, false),
    (Android512, 512, false),
    (MsTile150, 150, true),
    (Favicon16, 16, false),
    (Favicon32, 32, false)
  ]

  /** The twelve writes of generateAssets, in order: the file name and what is written under it. */
  function Writes(p: AssetParams): seq<(string, Artifact)> {
    seq(|WRITE_ORDER|, i requires 0 <= i < |WRITE_ORDER| => (FileName(WRITE_ORDER[i]), Asset(p, WRITE_ORDER[i])))
  }

  /** Where `f` comes in the write order. */
  function Position(f: OutputFile): (i: nat)
    ensures i < |WRITE_ORDER| && WRITE_ORDER[i] == f
  {
    match f
    case AppleTouchIcon => 0
    case Android192 => 1
    case Android512 => 2
    case MsTile150 => 3
    case Favicon16 => 4
    case Favicon32 => 5
    case FaviconIco => 6
    case SafariPinnedTab => 7
    case ManifestJson => 8
    case SiteWebmanifest => 9
    case BrowserConfigXml => 10
    case MetaTagsHtml => 11
  }

  /** What generateAssets writes to output `f`. */
  function Asset(p: AssetParams, f: OutputFile): Artifact {
    var s := ResolveDefaults(p);
    var bg := Some(s.backgroundColor);
    match f
    case AppleTouchIcon => Raster(Png(180, bg))
    case Android192 => Raster(Png(192, None))
    case Android512 => Raster(Png(512, None))
    case MsTile150 => Raster(Png(150, bg))
    case Favicon16 => Raster(Png(16, None))
    case Favicon32 => Raster(Png(32, None))
    case FaviconIco => Ico([Png(16, bg), Png(32, bg), Png(48, bg)])
    case SafariPinnedTab => PinnedTab(p.inputPath)
    case ManifestJson => Json(BuildManifest(s))
    case SiteWebmanifest => Json(BuildManifest(s))
    case BrowserConfigXml => BrowserConfigFile(s.themeColor)
    case MetaTagsHtml => MetaTagsFile(s.appName, s.themeColor)
  }

  /**
   * The text of the files whose text this model builds: browserconfig.xml,
   * meta-tags.html and the pinned-tab wrapper, which embeds the base64 text
   * `base64` gives for its PNG (the encoder is a parameter since the PNG bytes
   * are not modelled). The PNGs, the ICO, a copied source and the manifest JSON
   * carry none here.
   */
  function TextOf(a: Artifact, base64: Payload -> string): Option<string> {
    match a
    case SvgWrap(payload) => Some(PinnedTabSvg(base64(payload)))
    case BrowserConfigFile(tileColor) => Some(BrowserConfig(tileColor))
    case MetaTagsFile(appName, themeColor) => Some(MetaTags(appName, themeColor))
    case _ => None
  }

  // What each output holds, one lemma per kind of output.

  lemma RasterAssets(p: AssetParams, bg: Option<string>)
    requires bg == Some(ResolveDefaults(p).backgroundColor)
    ensures Asset(p, AppleTouchIcon) == Raster(Png(180, if Truthy(bg) then bg else None))
    ensures Asset(p, Android192) == Raster(Png(192, None))
    ensures Asset(p, Android512) == Raster(Png(512, None))
    ensures Asset(p, MsTile150) == Raster(Png(150, if Truthy(bg) then bg else None))
    ensures Asset(p, Favicon16) == Raster(Png(16, None))
    ensures Asset(p, Favicon32) == Raster(Png(32, None))
  {
    DefaultsFillMissing(p);
  }

  lemma IcoAsset(p: AssetParams, bg: string)
    requires bg == ResolveDefaults(p).backgroundColor
    ensures Asset(p, FaviconIco) == Ico([Png(16, Some(bg)), Png(32, Some(bg)), Png(48, Some(bg))])
  {
  }

  lemma PinnedTabAsset(p: AssetParams)
    ensures Asset(p, SafariPinnedTab) == PinnedTab(p.inputPath)
  {
  }

  lemma ManifestAssets(p: AssetParams)
    ensures Asset(p, ManifestJson) == Json(BuildManifest(ResolveDefaults(p)))
    ensures Asset(p, SiteWebmanifest) == Json(BuildManifest(ResolveDefaults(p)))
  {
  }

  lemma BrowserConfigAsset(p: AssetParams)
    ensures Asset(p, BrowserConfigXml) == BrowserConfigFile(ResolveDefaults(p).themeColor)
  {
  }

  lemma MetaTagsAsset(p: AssetParams)
    ensures Asset(p, MetaTagsHtml) == MetaTagsFile(ResolveDefaults(p).appName, ResolveDefaults(p).themeColor)
  {
  }

  /** The twelve file names are pairwise distinct. */
  lemma FileNamesDistinct()
    ensures forall f, g :: FileName(f) == FileName(g) ==> f == g
    ensures |WRITE_ORDER| == 12 && Distinct(WRITE_ORDER)
  {
  }

  lemma EveryOutputWritten(f: OutputFile)
    ensures f in WRITE_ORDER
  {
    match f
    case AppleTouchIcon => assert WRITE_ORDER[0] == f;
    case Android192 => assert WRITE_ORDER[1] == f;
    case Android512 => assert WRITE_ORDER[2] == f;
    case MsTile150 => assert WRITE_ORDER[3] == f;
    case Favicon16 => assert WRITE_ORDER[4] == f;
    case Favicon32 => assert WRITE_ORDER[5] == f;
    case FaviconIco => assert WRITE_ORDER[6] == f;
    case SafariPinnedTab => assert WRITE_ORDER[7] == f;
    case ManifestJson => assert WRITE_ORDER[8] == f;
    case SiteWebmanifest => assert WRITE_ORDER[9] == f;
    case BrowserConfigXml => assert WRITE_ORDER[10] == f;
    case MetaTagsHtml => assert WRITE_ORDER[11] == f;
  }

  /** The names generateAssets writes to. */
  function OutputNames(): set<string> {
    set f | f in WRITE_ORDER :: FileName(f)
  }

  /** The writes go to the twelve distinct file names, output `f` at its place in the write order. */
  lemma WritesNames(p: AssetParams)
    ensures |Writes(p)| == 12 && NamesDistinct(Writes(p))
    ensures Names(Writes(p)) == OutputNames() && |OutputNames()| == 12
    ensures forall f :: Writes(p)[Position(f)] == (FileName(f), Asset(p, f))
  {
    FileNamesDistinct();
    var w := Writes(p);
    forall n | n in OutputNames() ensures n in Names(w) {
      var f :| f in WRITE_ORDER && FileName(f) == n;
      assert w[Position(f)].0 == n;
    }
    NamesCount(w);
  }

  /** The generated files keyed by name, as written into an empty directory. */
  function Assets(p: AssetParams): map<string, Artifact> {
    Overlay(map[], Writes(p))
  }

  /**
   * After generateAssets the directory holds the old files and the twelve
   * outputs: each output under its own name with its catalogue content, every
   * other old file as it was.
   */
  lemma GeneratedFiles(before: map<string, Artifact>, p: AssetParams)
    ensures Overlay(before, Writes(p)) == before + Assets(p)
    ensures Overlay(before, Writes(p)).Keys == before.Keys + OutputNames()
    ensures forall f :: FileName(f) in Overlay(before, Writes(p)) && Overlay(before, Writes(p))[FileName(f)] == Asset(p, f)
    ensures forall n :: n in before && n !in OutputNames() ==> Overlay(before, Writes(p))[n] == before[n]
  {
    WritesNames(p);
    OverlayUnion(before, Writes(p));
    OverlayKeys(before, Writes(p));
    forall f ensures FileName(f) in Overlay(before, Writes(p)) && Overlay(before, Writes(p))[FileName(f)] == Asset(p, f) {
      OverlayLookup(before, Writes(p), Position(f));
    }
    forall n | n in before && n !in OutputNames() ensures Overlay(before, Writes(p))[n] == before[n] {
      OverlayOutside(before, Writes(p), n);
    }
  }

  /** Into an empty directory the outputs are exactly twelve files. */
  lemma AssetNames(p: AssetParams)
    ensures Assets(p).Keys == OutputNames() && |Assets(p)| == 12
  {
    WritesNames(p);
    OverlayKeys(map[], Writes(p));
  }

  /** manifest.json and site.webmanifest hold the same manifest. */
  lemma ManifestTwins(p: AssetParams)
    ensures Asset(p, ManifestJson) == Asset(p, SiteWebmanifest) == Json(BuildManifest(ResolveDefaults(p)))
  {
  }

  /**
   * The standalone PNGs are those of the table; only the apple-touch icon and
   * the tile are flattened, onto the background colour.
   */
  lemma RasterCatalogue(p: AssetParams)
    ensures forall i :: 0 <= i < |STANDALONE_RASTERS| ==>
      var (f, size, flat) := STANDALONE_RASTERS[i];
      Asset(p, f) == Raster(Png(size, if flat then Some(ResolveDefaults(p).backgroundColor) else None))
    ensures forall f :: Asset(p, f).Raster? ==>
      (Asset(p, f).png.flatten.Some? <==> f == AppleTouchIcon || f == MsTile150)
    ensures forall f :: Asset(p, f).Raster? ==>
      exists i :: 0 <= i < |STANDALONE_RASTERS| && STANDALONE_RASTERS[i].0 == f
  {
    var bg := ResolveDefaults(p).backgroundColor;
    DefaultsFillMissing(p);
    RasterAssets(p, Some(bg));
    forall i | 0 <= i < |STANDALONE_RASTERS|
      ensures var (f, size, flat) := STANDALONE_RASTERS[i];
        Asset(p, f) == Raster(Png(size, if flat then Some(bg) else None))
    {
      assert i == 0 || i == 1 || i == 2 || i == 3 || i == 4 || i == 5;
    }
    forall f | Asset(p, f).Raster?
      ensures exists i :: 0 <= i < |STANDALONE_RASTERS| && STANDALONE_RASTERS[i].0 == f
    {
      match f
      case AppleTouchIcon => assert STANDALONE_RASTERS[0].0 == f;
      case Android192 => assert STANDALONE_RASTERS[1].0 == f;
      case Android512 => assert STANDALONE_RASTERS[2].0 == f;
      case MsTile150 => assert STANDALONE_RASTERS[3].0 == f;
      case Favicon16 => assert STANDALONE_RASTERS[4].0 == f;
      case Favicon32 => assert STANDALONE_RASTERS[5].0 == f;
      case SafariPinnedTab => PinnedTabBranch(p.inputPath);
    }
  }

  /** favicon.ico packs three PNGs of 16, 32 and 48 px, in that order, each flattened onto the background colour. */
  lemma IcoContents(p: AssetParams)
    ensures Asset(p, FaviconIco).Ico?
    ensures var buffers := Asset(p, FaviconIco).buffers;
      |buffers| == |ICO_SIZES| == 3 &&
      forall i :: 0 <= i < 3 ==> buffers[i] == Png(ICO_SIZES[i], Some(ResolveDefaults(p).backgroundColor))
  {
  }

  /**
   * The two text documents: the tile colour read back from browserconfig.xml
   * is the theme colour, and meta-tags.html is the meta-tag page for the name
   * and colour.
   */
  lemma TextContents(p: AssetParams, base64: Payload -> string)
    ensures var s := ResolveDefaults(p);
      && TextOf(Asset(p, BrowserConfigXml), base64) == Some(BrowserConfig(s.themeColor))
      && TileColorOf(TextOf(Asset(p, BrowserConfigXml), base64).value) == Some(s.themeColor)
      && TextOf(Asset(p, MetaTagsHtml), base64) == Some(MetaTags(s.appName, s.themeColor))
  {
    var s := ResolveDefaults(p);
    assert TileColorOf(BrowserConfig(s.themeColor)) == Some(s.themeColor) by {
      BrowserConfigRoundTrip(s.themeColor);
    }
    BrowserConfigAsset(p);
    MetaTagsAsset(p);
  }

  /**
   * Among the twelve outputs, the files whose text this model builds are
   * browserconfig.xml, meta-tags.html and, for a source that is not an SVG,
   * the pinned-tab wrapper.
   */
  lemma TextOutputs(p: AssetParams, base64: Payload -> string)
    ensures forall f :: TextOf(Asset(p, f), base64).Some? <==>
      f == BrowserConfigXml || f == MetaTagsHtml || (f == SafariPinnedTab && Lower(Extname(p.inputPath)) != ".svg")
  {
    LowerIsSvg(Extname(p.inputPath));
    forall f ensures TextOf(Asset(p, f), base64).Some? <==>
      f == BrowserConfigXml || f == MetaTagsHtml || (f == SafariPinnedTab && Lower(Extname(p.inputPath)) != ".svg")
    {
      OutputHasText(p, base64, f);
    }
  }

  /** Which single output carries text built here, with the letter-by-letter `.svg` test. */
  lemma OutputHasText(p: AssetParams, base64: Payload -> string, f: OutputFile)
    ensures TextOf(Asset(p, f), base64).Some? <==>
      f == BrowserConfigXml || f == MetaTagsHtml || (f == SafariPinnedTab && !IsSvgExtension(Extname(p.inputPath)))
  {
    match f
    case SafariPinnedTab => PinnedTabAsset(p);
    case AppleTouchIcon =>
    case Android192 =>
    case Android512 =>
    case MsTile150 =>
    case Favicon16 =>
    case Favicon32 =>
    case FaviconIco =>
    case ManifestJson =>
    case SiteWebmanifest =>
    case BrowserConfigXml =>
    case MetaTagsHtml =>
  }

  /**
   * The file written to safari-pinned-tab.svg: for an SVG source a copy, which
   * carries no text built here; for any other source the wrapper around the
   * base64 text of the 512 px silhouette thresholded at 200, which declares a
   * 512 x 512 canvas and view box, carries that text as a PNG data URI and
   * gives it back unchanged.
   */
  lemma PinnedTabText(p: AssetParams, base64: Payload -> string)
    ensures Lower(Extname(p.inputPath)) == ".svg" ==>
      Asset(p, SafariPinnedTab) == CopyOf(p.inputPath) && TextOf(Asset(p, SafariPinnedTab), base64) == None
    ensures Lower(Extname(p.inputPath)) != ".svg" ==>
      TextOf(Asset(p, SafariPinnedTab), base64) == Some(PinnedTabSvg(base64(ThresholdedPng(PINNED_TAB_SIZE, PINNED_TAB_THRESHOLD))))
    ensures Lower(Extname(p.inputPath)) != ".svg" ==>
      var payload := base64(ThresholdedPng(PINNED_TAB_SIZE, PINNED_TAB_THRESHOLD));
      var svg := TextOf(Asset(p, SafariPinnedTab), base64).value;
      && Contains(svg, Attr("width", "512"))
      && Contains(svg, Attr("height", "512"))
      && Contains(svg, Attr("viewBox", "0 0 512 512"))
      && Contains(svg, DATA_URI_PREFIX + payload)
      && PayloadOf(svg) == Some(payload)
  {
    PinnedTabAsset(p);
    PinnedTabBranch(p.inputPath);
    if Lower(Extname(p.inputPath)) != ".svg" {
      var payload := base64(ThresholdedPng(PINNED_TAB_SIZE, PINNED_TAB_THRESHOLD));
      assert DecimalText(PINNED_TAB_SIZE) == "512";
      assert "0 0 " + DecimalText(PINNED_TAB_SIZE) + " " + DecimalText(PINNED_TAB_SIZE) == "0 0 512 512";
      PinnedTabSvgDeclarations(payload);
      PinnedTabSvgRoundTrip(payload);
    }
  }

  /** The manifest icons name the two Android PNGs, at the sizes those are rendered at. */
  lemma ManifestIconsResolve(p: AssetParams)
    ensures var m := BuildManifest(ResolveDefaults(p));
      && |m.icons| == 2
      && m.icons[0].src == FileName(Android192) && m.icons[0].sizes == SizeText(Asset(p, Android192).png.size)
      && m.icons[1].src == FileName(Android512) && m.icons[1].sizes == SizeText(Asset(p, Android512).png.size)
  {
    ManifestFields(ResolveDefaults(p));
  }

  /** Generating again into the same directory changes nothing. */
  lemma RerunIdempotent(before: map<string, Artifact>, p: AssetParams)
    ensures Overlay(Overlay(before, Writes(p)), Writes(p)) == Overlay(before, Writes(p))
  {
    WritesNames(p);
    OverlayIdempotent(before, Writes(p));
  }

  /**
   * Given name, short name and colours reach the files verbatim: the manifest
   * fields, `<TileColor>` in browserconfig.xml, and the theme-colour and
   * application-name content attributes of meta-tags.html.
   */
  lemma ParametersReachFiles(p: AssetParams, base64: Payload -> string)
    requires Truthy(p.appName) && Truthy(p.shortName) && Truthy(p.themeColor) && Truthy(p.backgroundColor)
    ensures var m := Asset(p, ManifestJson).manifest;
      && m.name == p.appName.value && m.shortName == p.shortName.value
      && m.themeColor == p.themeColor.value && m.backgroundColor == p.backgroundColor.value
    ensures TextOf(Asset(p, BrowserConfigXml), base64).Some?
    ensures Contains(TextOf(Asset(p, BrowserConfigXml), base64).value, TILE_OPEN + p.themeColor.value + TILE_CLOSE)
    ensures TextOf(Asset(p, MetaTagsHtml), base64).Some?
    ensures Contains(TextOf(Asset(p, MetaTagsHtml), base64).value, Attr("content", p.themeColor.value))
    ensures Contains(TextOf(Asset(p, MetaTagsHtml), base64).value, Attr("content", p.appName.value))
  {
    DefaultsKeepGivenValues(p);
    BrowserConfigAsset(p);
    MetaTagsAsset(p);
    BrowserConfigElements(p.themeColor.value);
    MetaTagsMentionParameters(p.appName.value, p.themeColor.value);
  }

  // ---------------------------------------------------------------------------
  // The output directory and the generation steps
  // ---------------------------------------------------------------------------

  /**
   * The output directory on disk: whether it exists and the files it holds,
   * keyed by name.
   */
  class OutputDir {
    var created: bool
    var files: map<string, Artifact>

    constructor (created: bool, files: map<string, Artifact>)
      ensures this.created == created && this.files == files
    {
      this.created := created;
      this.files := files;
    }

    /** ensureDir: a recursive mkdir, which leaves an existing directory and its files alone. */
    method EnsureDir()
      modifies this
      ensures created
      ensures files == old(files)
    {
      created := true;
    }

    /** One file written (writeFile, copyFile, toFile): `name` now holds `content`, whatever it held before. */
    method WriteFile(name: string, content: Artifact)
      requires created
      modifies this
      ensures created
      ensures files == old(files)[name := content]
    {
      files := files[name := content];
    }
  }

  /** generatePng: the flatten option is applied only when it holds a non-empty colour. */
  method GeneratePng(out: OutputDir, size: nat, dest: string, flatten: Option<string>)
    requires out.created
    modifies out
    ensures out.created
    ensures out.files == old(out.files)[dest := Raster(Png(size, if Truthy(flatten) then flatten else None))]
  {
    var png := Png(size, None);
    if Truthy(flatten) {
      png := Png(size, flatten);
    }
    out.WriteFile(dest, Raster(png));
  }

  /** generateFaviconIco: three flattened PNGs packed into one ICO. */
  method GenerateFaviconIco(out: OutputDir, dest: string, backgroundColor: string)
    requires out.created
    modifies out
    ensures out.created
    ensures out.files == old(out.files)[dest := Ico([Png(16, Some(backgroundColor)), Png(32, Some(backgroundColor)), Png(48, Some(backgroundColor))])]
  {
    var buffers := IcoBuffers(backgroundColor);
    out.WriteFile(dest, Ico(buffers));
  }

  /** generateSafariPinnedTab: copy an SVG source, wrap the silhouette of any other. */
  method GenerateSafariPinnedTab(out: OutputDir, inputPath: string, dest: string)
    requires out.created
    modifies out
    ensures out.created
    ensures out.files == old(out.files)[dest := PinnedTab(inputPath)]
  {
    var ext := Lower(Extname(inputPath));
    LowerIsSvg(Extname(inputPath));
    if ext == ".svg" {
      out.WriteFile(dest, CopyOf(inputPath));
      return;
    }
    out.WriteFile(dest, SvgWrap(ThresholdedPng(PINNED_TAB_SIZE, PINNED_TAB_THRESHOLD)));
  }

  method WriteManifest(out: OutputDir, dest: string, data: Manifest)
    requires out.created
    modifies out
    ensures out.created
    ensures out.files == old(out.files)[dest := Json(data)]
  {
    out.WriteFile(dest, Json(data));
  }

  method WriteBrowserConfig(out: OutputDir, dest: string, tileColor: string)
    requires out.created
    modifies out
    ensures out.created
    ensures out.files == old(out.files)[dest := BrowserConfigFile(tileColor)]
  {
    out.WriteFile(dest, BrowserConfigFile(tileColor));
  }

  method WriteMetaTags(out: OutputDir, dest: string, appName: string, themeColor: string)
    requires out.created
    modifies out
    ensures out.created
    ensures out.files == old(out.files)[dest := MetaTagsFile(appName, themeColor)]
  {
    out.WriteFile(dest, MetaTagsFile(appName, themeColor));
  }

  /**
   * generateAssets: apply the defaults, create the directory, write the twelve
   * files in order.
   */
  method GenerateAssets(params: AssetParams, out: OutputDir)
    modifies out
    ensures out.created
    ensures out.files == Overlay(old(out.files), Writes(params))
  {
    var s := ResolveDefaults(params);
    DefaultsFillMissing(params);
    out.EnsureDir();
    var bg := Some(s.backgroundColor);
    GeneratePng(out, 180, FileName(AppleTouchIcon), bg);
    GeneratePng(out, 192, FileName(Android192), None);
    GeneratePng(out, 512, FileName(Android512), None);
    GeneratePng(out, 150, FileName(MsTile150), bg);
    GeneratePng(out, 16, FileName(Favicon16), None);
    GeneratePng(out, 32, FileName(Favicon32), None);
    GenerateFaviconIco(out, FileName(FaviconIco), s.backgroundColor);
    GenerateSafariPinnedTab(out, params.inputPath, FileName(SafariPinnedTab));
    var manifest := BuildManifest(s);
    WriteManifest(out, FileName(ManifestJson), manifest);
    WriteManifest(out, FileName(SiteWebmanifest), manifest);
    WriteBrowserConfig(out, FileName(BrowserConfigXml), s.themeColor);
    WriteMetaTags(out, FileName(MetaTagsHtml), s.appName, s.themeColor);
    RasterAssets(params, bg);
    IcoAsset(params, s.backgroundColor);
    PinnedTabAsset(params);
    ManifestAssets(params);
    BrowserConfigAsset(params);
    MetaTagsAsset(params);
    OverlayTwelve(old(out.files), Writes(params));
  }
}
