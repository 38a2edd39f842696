/** Paths of the app's bundled icons on each platform. */
module Assets {
  import opened Text

  datatype Platform = Web | Mobile
  datatype AssetName = App | Splash | Adaptive | Favicon

  /** The `ASSETS.icons` table. */
  function IconPath(name: AssetName): (r: string)
    ensures |r| >= 2 && r[..2] == "./" && EndsWith(r, ".png")
  {
    match name
    case App => "./icon.png"
    case Splash => "./splash-icon.png"
    case Adaptive => "./adaptive-icon.png"
    case Favicon => "./favicon.png"
  }

  /** Absolute on the web, relative on mobile; both name the assets folder. */
  function BasePath(platform: Platform): (r: string)
    ensures platform == Web <==> StartsWith(r, "/")
    ensures EndsWith(r, "/assets")
  {
    if platform == Web then "/assets"
    else
      assert "./assets"[0] == '.' && "/"[0] == '/';
      "./assets"
  }

  /** `getAssetPath`: the platform's base, a slash, and the icon path with
      its first "./" removed. The platform defaults to Web. */
  function GetAssetPath(name: AssetName, platform: Platform := Web): (r: string)
    ensures StartsWith(r, BasePath(platform) + "/")
  {
    BasePath(platform) + "/" + ReplaceFirst(IconPath(name), "./", "")
  }

  /** Every icon path starts with "./", which is stripped; nothing else of
      the file name changes. */
  lemma {:induction false} AssetPathStripsLeadingDotSlash(name: AssetName, platform: Platform)
    ensures GetAssetPath(name, platform) == BasePath(platform) + "/" + IconPath(name)[2..]
  {
    var icon := IconPath(name);
    assert icon[..2] == "./";
    DropLeadingDotSlash(icon);
  }

  lemma DropLeadingDotSlash(p: string)
    requires |p| >= 2 && p[..2] == "./"
    ensures ReplaceFirst(p, "./", "") == p[2..]
  {
    assert OccursAt(p, "./", 0);
    ReplaceFirstAt(p, "./", "", 0);
  }

  /** The app icon resolves to "/assets/icon.png" on the web, the default
      platform. */
  lemma AppIconOnWeb()
    ensures GetAssetPath(App) == "/assets/icon.png"
  {
    AssetPathStripsLeadingDotSlash(App, Web);
  }

  /** On mobile the base is relative: "./assets/icon.png". */
  lemma AppIconOnMobile()
    ensures GetAssetPath(App, Mobile) == "./assets/icon.png"
  {
    AssetPathStripsLeadingDotSlash(App, Mobile);
  }

  /** A string pattern replaces only its first occurrence: "./a/./b" keeps
      its second "./". */
  lemma OnlyFirstDotSlashRemoved()
    ensures ReplaceFirst("./a/./b", "./", "") == "a/./b"
  {
    ReplaceFirstAt("./a/./b", "./", "", 0);
  }
}
