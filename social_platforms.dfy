/**
 * The social platform table and the URL normaliser the link editor applies
 * to what the user typed.
 */
module SocialPlatforms {
  import opened Wrappers
  import opened ProfileTypes

  datatype PlatformConfig = PlatformConfig(
    id: SocialPlatform,
    name: string,
    icon: string,
    placeholder: string,
    urlPrefix: Option<string>,
    baseUrl: Option<string>)

  /** `SOCIAL_PLATFORMS` */
  const Platforms: seq<PlatformConfig> := [
    PlatformConfig(LinkedIn, "LinkedIn", "Linkedin", "linkedin.com/in/your-profile",
                   Some("https://linkedin.com/in/"), Some("https://linkedin.com")),
    PlatformConfig(GitHub, "GitHub", "Github", "github.com/your-username",
                   Some("https://github.com/"), Some("https://github.com")),
    PlatformConfig(Email, "Email", "Mail", "your.email@example.com",
                   Some("mailto:"), None),
    PlatformConfig(Website, "Website", "Globe", "yourwebsite.com",
                   Some("https://"), None),
    PlatformConfig(Twitter, "Twitter / X", "Twitter", "twitter.com/your-handle",
                   Some("https://twitter.com/"), Some("https://twitter.com")),
    PlatformConfig(Facebook, "Facebook", "Facebook", "facebook.com/your-profile",
                   Some("https://facebook.com/"), Some("https://facebook.com")),
    PlatformConfig(Instagram, "Instagram", "Instagram", "instagram.com/your-handle",
                   Some("https://instagram.com/"), Some("https://instagram.com")),
    PlatformConfig(YouTube, "YouTube", "Youtube", "youtube.com/@your-channel",
                   Some("https://youtube.com/@"), Some("https://youtube.com")),
    PlatformConfig(TikTok, "TikTok", "Video", "tiktok.com/@your-handle",
                   Some("https://tiktok.com/@"), Some("https://tiktok.com")),
    PlatformConfig(Behance, "Behance", "Palette", "behance.net/your-profile",
                   Some("https://behance.net/"), Some("https://behance.net")),
    PlatformConfig(Dribbble, "Dribbble", "Dribbble", "dribbble.com/your-profile",
                   Some("https://dribbble.com/"), Some("https://dribbble.com")),
    PlatformConfig(Medium, "Medium", "BookOpen", "medium.com/@your-handle",
                   Some("https://medium.com/@"), Some("https://medium.com"))
  ]

  /** `table.find(p => p.id === platform)`: the first entry with that id. */
  function Find(table: seq<PlatformConfig>, platform: SocialPlatform): (r: Option<PlatformConfig>)
    ensures r.None? <==> forall i :: 0 <= i < |table| ==> table[i].id != platform
    ensures r.Some? ==> exists i :: 0 <= i < |table| && table[i] == r.value && table[i].id == platform &&
                                    forall j :: 0 <= j < i ==> table[j].id != platform
  {
    if table == [] then None
    else if table[0].id == platform then Some(table[0])
    else
      var r := Find(table[1..], platform);
      assert r.Some? ==> exists i :: 0 <= i < |table[1..]| && table[1..][i] == r.value && table[1..][i].id == platform &&
                                     forall j :: 0 <= j < i ==> table[1..][j].id != platform;
      r
  }

  /** The position of each platform in the table. */
  function TableIndex(platform: SocialPlatform): nat {
    match platform
    case LinkedIn => 0 case GitHub => 1 case Email => 2 case Website => 3
    case Twitter => 4 case Facebook => 5 case Instagram => 6 case YouTube => 7
    case TikTok => 8 case Behance => 9 case Dribbble => 10 case Medium => 11
  }

  /** Every platform has exactly one entry in the table: the one at its index. */
  lemma PlatformsListedOnce(platform: SocialPlatform)
    ensures TableIndex(platform) < |Platforms| && Platforms[TableIndex(platform)].id == platform
    ensures forall i :: 0 <= i < |Platforms| && Platforms[i].id == platform ==> i == TableIndex(platform)
  {
    assert forall i :: 0 <= i < |Platforms| ==> TableIndex(Platforms[i].id) == i;
  }

  /** `find` stops at the first entry with the id. */
  lemma {:induction false} FindFirst(table: seq<PlatformConfig>, platform: SocialPlatform, k: nat)
    requires k < |table| && table[k].id == platform
    requires forall j :: 0 <= j < k ==> table[j].id != platform
    ensures Find(table, platform) == Some(table[k])
  {
    if k > 0 {
      assert table[0].id != platform;
      FindFirst(table[1..], platform, k - 1);
    }
  }

  /** `getPlatformConfig(platformId)`: always found, and it is that platform's entry. */
  function GetPlatformConfig(platform: SocialPlatform): (r: Option<PlatformConfig>)
    ensures r == Some(Platforms[TableIndex(platform)]) && r.value.id == platform
  {
    PlatformsListedOnce(platform);
    FindFirst(Platforms, platform, TableIndex(platform));
    Find(Platforms, platform)
  }

  /** `sub` occurs in `s` starting at position `i`. */
  predicate OccursAt(s: string, sub: string, i: nat) {
    i + |sub| <= |s| && s[i..i + |sub|] == sub
  }

  /** `s.includes(sub)` */
  function Includes(s: string, sub: string): (r: bool)
    ensures r <==> exists i: nat :: OccursAt(s, sub, i)
  {
    if sub <= s then
      assert OccursAt(s, sub, 0);
      true
    else if s == [] then
      assert forall i: nat :: !OccursAt(s, sub, i);
      false
    else
      var r := Includes(s[1..], sub);
      assert forall i: nat :: OccursAt(s[1..], sub, i) <==> OccursAt(s, sub, i + 1);
      assert !OccursAt(s, sub, 0);
      assert forall i: nat :: OccursAt(s, sub, i) ==> i > 0 && OccursAt(s[1..], sub, i - 1);
      r
  }

  /** `s.replace(pattern, replacement)` with a string pattern: only the first occurrence is replaced. */
  function ReplaceFirst(s: string, pattern: string, replacement: string): (r: string)
    ensures pattern <= s ==> r == replacement + s[|pattern|..]
    ensures !Includes(s, pattern) ==> r == s
    decreases |s|
  {
    if pattern <= s then replacement + s[|pattern|..]
    else if s == [] then s
    else
      assert !Includes(s, pattern) ==> !Includes(s[1..], pattern) by {
        if Includes(s[1..], pattern) {
          var i: nat :| OccursAt(s[1..], pattern, i);
          assert s[i + 1..i + 1 + |pattern|] == s[1..][i..i + |pattern|];
          assert OccursAt(s, pattern, i + 1);
        }
      }
      [s[0]] + ReplaceFirst(s[1..], pattern, replacement)
  }

  /** `config.baseUrl.replace('https://', '')`, when the config has a (non-empty) base URL. */
  function HostOf(config: PlatformConfig): Option<string> {
    if config.baseUrl.Some? && config.baseUrl.value != "" then Some(ReplaceFirst(config.baseUrl.value, "https://", ""))
    else None
  }

  /**
   * `formatSocialUrl(platform, input)`, as written: an email without
   * `mailto:` gets it; a URL with a scheme stays; an input naming the
   * platform's host gets `https://`; anything else gets the platform prefix.
   * An email that already starts with `mailto:` reaches the last branch.
   */
  function FormatSocialUrl(platform: SocialPlatform, input: string): (r: string)
    ensures |input| <= |r| && r[|r| - |input|..] == input
    ensures platform == Email && !("mailto:" <= input) ==> r == "mailto:" + input
    ensures platform != Email && ("http://" <= input || "https://" <= input) ==> r == input
  {
    match GetPlatformConfig(platform)
    case None => input
    case Some(config) =>
      if platform == Email && !("mailto:" <= input) then "mailto:" + input
      else if "http://" <= input || "https://" <= input then input
      else if HostOf(config).Some? && Includes(input, HostOf(config).value) then "https://" + input
      else config.urlPrefix.GetOr("") + input
  }

  /** The `urlPrefix` each platform's table entry carries: `mailto:` for email, an https prefix otherwise. */
  function TablePrefix(platform: SocialPlatform): string {
    match platform
    case LinkedIn => "https://linkedin.com/in/" case GitHub => "https://github.com/"
    case Email => "mailto:" case Website => "https://"
    case Twitter => "https://twitter.com/" case Facebook => "https://facebook.com/"
    case Instagram => "https://instagram.com/" case YouTube => "https://youtube.com/@"
    case TikTok => "https://tiktok.com/@" case Behance => "https://behance.net/"
    case Dribbble => "https://dribbble.com/" case Medium => "https://medium.com/@"
  }

  lemma PrefixesAreTabled(platform: SocialPlatform)
    ensures Platforms[TableIndex(platform)].urlPrefix == Some(TablePrefix(platform))
  {
  }

  /** Every non-email platform's prefix is an `https://` URL. */
  lemma NonEmailPrefixesAreHttps(platform: SocialPlatform)
    requires platform != Email
    ensures "https://" <= GetPlatformConfig(platform).value.urlPrefix.GetOr("")
  {
    PrefixesAreTabled(platform);
    var prefix := TablePrefix(platform);
    assert prefix[..8] == "https://";
  }

  /** For a platform other than email, formatting an already formatted URL changes nothing. */
  lemma FormatIsIdempotent(platform: SocialPlatform, input: string)
    requires platform != Email
    ensures FormatSocialUrl(platform, FormatSocialUrl(platform, input)) == FormatSocialUrl(platform, input)
  {
    var r := FormatSocialUrl(platform, input);
    var config := GetPlatformConfig(platform).value;
    if !("http://" <= input || "https://" <= input) {
      if !(HostOf(config).Some? && Includes(input, HostOf(config).value)) {
        var prefix := config.urlPrefix.GetOr("");
        NonEmailPrefixesAreHttps(platform);
        assert r == prefix + input;
        assert "https://" <= r by { assert r[..|"https://"|] == prefix[..|"https://"|]; }
      } else {
        assert r == "https://" + input;
      }
    }
  }

  lemma GitHubHost()
    ensures HostOf(Platforms[1]) == Some("github.com")
  {
    var base := "https://github.com";
    assert Platforms[1].baseUrl == Some(base);
    assert "https://" <= base;
    var host := ReplaceFirst(base, "https://", "");
    assert host == "" + base[|"https://"|..];
    assert base[8..] == "github.com";
    assert host == "github.com";
  }

  /**
   * A non-email input with no scheme that does not name the platform's host
   * gets the platform's prefix.
   */
  lemma BareInputGetsPrefix(platform: SocialPlatform, input: string)
    requires platform != Email
    requires !("http://" <= input) && !("https://" <= input)
    requires var config := Platforms[TableIndex(platform)];
             HostOf(config).None? || !Includes(input, HostOf(config).value)
    ensures FormatSocialUrl(platform, input) == TablePrefix(platform) + input
  {
    PrefixesAreTabled(platform);
  }

  /** A bare input that already names the platform's host only gets `https://` in front. */
  lemma HostInputGetsHttps(platform: SocialPlatform, input: string)
    requires platform != Email
    requires !("http://" <= input) && !("https://" <= input)
    requires var config := Platforms[TableIndex(platform)];
             HostOf(config).Some? && Includes(input, HostOf(config).value)
    ensures FormatSocialUrl(platform, input) == "https://" + input
  {
  }

  /** The github example: a bare user name gets the profile prefix. */
  lemma GitHubUserName(name: string)
    requires name == "username"
    ensures FormatSocialUrl(GitHub, name) == "https://github.com/" + name
  {
    GitHubHost();
    assert !Includes(name, "github.com") by {
      forall i: nat ensures !OccursAt(name, "github.com", i) {}
    }
    assert !("http://" <= name) && !("https://" <= name) by {
      assert name[0] == 'u';
    }
    BareInputGetsPrefix(GitHub, name);
  }

  /** As written, an email already carrying `mailto:` gets a second one. */
  lemma EmailMailtoIsDoubled(input: string)
    requires "mailto:" <= input
    ensures FormatSocialUrl(Email, input) == "mailto:" + input
  {
    PlatformsListedOnce(Email);
    var config := GetPlatformConfig(Email).value;
    assert config == Platforms[2];
    assert input[0] == 'm';
    assert !("http://" <= input) && !("https://" <= input);
  }

  /** Hence, as written, formatting any email without `mailto:` a second time changes it again. */
  lemma EmailFormatNotIdempotent(input: string)
    requires !("mailto:" <= input)
    ensures FormatSocialUrl(Email, FormatSocialUrl(Email, input)) != FormatSocialUrl(Email, input)
  {
    var once := FormatSocialUrl(Email, input);
    assert once == "mailto:" + input;
    EmailMailtoIsDoubled(once);
    assert |FormatSocialUrl(Email, once)| == |once| + 7;
  }

  /** The evidently intended normaliser: an email that already has `mailto:` is kept as it is. */
  function FormatSocialUrlFixed(platform: SocialPlatform, input: string): (r: string)
    ensures |input| <= |r| && r[|r| - |input|..] == input
    ensures platform == Email ==> r == (if "mailto:" <= input then input else "mailto:" + input)
    ensures platform != Email ==> r == FormatSocialUrl(platform, input)
  {
    if platform == Email && "mailto:" <= input then input
    else FormatSocialUrl(platform, input)
  }

  /** The corrected normaliser is idempotent on every platform. */
  lemma FormatFixedIsIdempotent(platform: SocialPlatform, input: string)
    ensures FormatSocialUrlFixed(platform, FormatSocialUrlFixed(platform, input)) == FormatSocialUrlFixed(platform, input)
  {
    if platform != Email {
      FormatIsIdempotent(platform, input);
    }
  }
}
