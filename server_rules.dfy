/**
 * The decisions the `server` command takes besides pagination: which
 * subcommand runs, how many boosts the next level and a banner need, how a
 * server feature is labelled and counted, which verification level is shown,
 * and how a role colour is written.
 */
module ServerRules {
  import opened Optional
  import opened Text
  import opened Seqs

  // ---------------------------------------------------------------------------
  // Subcommand dispatch

  /** The reply `server` builds: one per subcommand, the help page, or the "must be used in a server" error. */
  datatype ServerReply =
    | NotInServer
    | Info | Icon | Banner | MemberCount | Roles | Emojis | Channels | Boosts | Region | Verification | Features
    | Help

  /** The subcommand name that selects a reply; the help page and the error have none. */
  function NameOf(r: ServerReply): Option<string>
  {
    match r
    case Info => Some("info")
    case Icon => Some("icon")
    case Banner => Some("banner")
    case MemberCount => Some("membercount")
    case Roles => Some("roles")
    case Emojis => Some("emojis")
    case Channels => Some("channels")
    case Boosts => Some("boosts")
    case Region => Some("region")
    case Verification => Some("verification")
    case Features => Some("features")
    case Help => None
    case NotInServer => None
  }

  /** Outside a server the command stops with an error; inside, the `if`/`else if` chain on the subcommand, with help as the final `else`. */
  function Dispatch(inServer: bool, subcommand: string): ServerReply
  {
    if !inServer then NotInServer
    else if subcommand == "info" then Info
    else if subcommand == "icon" then Icon
    else if subcommand == "banner" then Banner
    else if subcommand == "membercount" then MemberCount
    else if subcommand == "roles" then Roles
    else if subcommand == "emojis" then Emojis
    else if subcommand == "channels" then Channels
    else if subcommand == "boosts" then Boosts
    else if subcommand == "region" then Region
    else if subcommand == "verification" then Verification
    else if subcommand == "features" then Features
    else Help
  }

  /** The eleven subcommand names with a page of their own. */
  const PageNames: set<string> := {
    "info", "icon", "banner", "membercount", "roles", "emojis", "channels", "boosts", "region", "verification", "features"
  }

  /** Inside a server every page is selected by its own name, which is one of the eleven. */
  lemma DispatchByName(r: ServerReply)
    ensures NameOf(r).Some? ==> NameOf(r).value in PageNames && Dispatch(true, NameOf(r).value) == r
  {
  }

  /**
   * Outside a server every subcommand gets the error; inside, a page name
   * selects the page that carries it and every other string the help page.
   */
  lemma DispatchFallback(subcommand: string)
    ensures Dispatch(false, subcommand) == NotInServer
    ensures Dispatch(true, subcommand) != NotInServer
    ensures subcommand in PageNames ==> NameOf(Dispatch(true, subcommand)) == Some(subcommand)
    ensures Dispatch(true, subcommand) == Help <==> subcommand !in PageNames
  {
  }

  // ---------------------------------------------------------------------------
  // Boosts

  /** `boostLevel < 3 ? [7, 14, 30][boostLevel] : null`. */
  function NextLevelTarget(level: nat): Option<nat>
  {
    if level < 3 then Some([7, 14, 30][level]) else None
  }

  /** `nextLevelBoosts ? Math.max(0, nextLevelBoosts - boostCount) : 0`. */
  function BoostsNeeded(level: nat, boostCount: nat): (needed: int)
    ensures needed >= 0
    ensures level >= 3 ==> needed == 0
    ensures level < 3 ==> needed == 0 || boostCount + needed == NextLevelTarget(level).value
    ensures needed == 0 <==> level >= 3 || boostCount >= NextLevelTarget(level).value
  {
    var target := NextLevelTarget(level);
    if target.Some? && target.value != 0 then Max(0, target.value - boostCount) else 0
  }

  function Max(a: int, b: int): int { if a >= b then a else b }

  /** The targets are 7, 14 and 30 for levels 0, 1 and 2, rising with the level, and level 3 has none. */
  lemma NextLevelTargets(level: nat)
    ensures NextLevelTarget(0) == Some(7) && NextLevelTarget(1) == Some(14) && NextLevelTarget(2) == Some(30)
    ensures NextLevelTarget(level).None? <==> level >= 3
    ensures level < 2 ==> NextLevelTarget(level).value < NextLevelTarget(level + 1).value
  {
  }

  /** More boosts never need more boosts. */
  lemma BoostsNeededMonotone(level: nat, fewer: nat, more: nat)
    requires fewer <= more
    ensures BoostsNeeded(level, more) <= BoostsNeeded(level, fewer)
    ensures BoostsNeeded(level, fewer) - BoostsNeeded(level, more) <= more - fewer
  {
  }

  /** The banner page's "Needed Boosts": `premiumTier < 2 ? 15 - count : 0`, with no floor at zero. */
  function BannerBoostsNeeded(tier: nat, boostCount: nat): (needed: int)
    ensures tier >= 2 ==> needed == 0
    ensures tier < 2 ==> needed + boostCount == 15
    ensures needed < 0 <==> tier < 2 && boostCount > 15
  {
    if tier < 2 then 15 - boostCount else 0
  }

  // ---------------------------------------------------------------------------
  // Features

  /** The feature ids that have a label of their own, each with its wording (the leading emoji is not modelled). */
  const FeatureDescriptions: map<string, string> := map[
    "ANIMATED_BANNER" := "Animated Banner",
    "ANIMATED_ICON" := "Animated Icon",
    "APPLICATION_COMMAND_PERMISSIONS_V2" := "Advanced Permissions",
    "AUTO_MODERATION" := "Auto Moderation",
    "BANNER" := "Server Banner",
    "COMMUNITY" := "Community Server",
    "DEVELOPER_SUPPORT_SERVER" := "Developer Support",
    "DISCOVERABLE" := "Server Discovery",
    "FEATURABLE" := "Featurable",
    "INVITES_DISABLED" := "Invites Disabled",
    "INVITE_SPLASH" := "Invite Splash",
    "MEMBER_VERIFICATION_GATE_ENABLED" := "Member Screening",
    "MORE_EMOJI" := "Extended Emojis",
    "NEWS" := "News Channels",
    "PARTNERED" := "Discord Partner",
    "PREVIEW_ENABLED" := "Server Preview",
    "PRIVATE_THREADS" := "Private Threads",
    "ROLE_ICONS" := "Role Icons",
    "THREADS_ENABLED" := "Threads Enabled",
    "THREE_DAY_THREAD_ARCHIVE" := "3-Day Thread Archive",
    "TICKETED_EVENTS_ENABLED" := "Ticketed Events",
    "VANITY_URL" := "Vanity URL",
    "VERIFIED" := "Verified Server",
    "VIP_REGIONS" := "VIP Voice Regions",
    "WELCOME_SCREEN_ENABLED" := "Welcome Screen"
  ]

  /** The bullet put in front of a feature without a label of its own. */
  const FallbackMarker: string := "\U{1F539} "

  /** `featureDescriptions[f] || '🔹 ' + f.replaceAll('_', ' ').toLowerCase()`. */
  function FeatureLabel(f: string): string
  {
    if f in FeatureDescriptions then FeatureDescriptions[f]
    else FallbackMarker + Lower(ReplaceAll(f, '_', ' '))
  }

  /** A feature id made of upper-case letters, digits and underscores. */
  predicate IsFeatureId(f: string)
  {
    forall i :: 0 <= i < |f| ==> IsUpper(f[i]) || '0' <= f[i] <= '9' || f[i] == '_'
  }

  /**
   * A listed feature shows its own label. Any other shows the bullet and then
   * the id with every underscore a space and every letter lower case, one
   * character for one, so that a well-formed id can be read back from it.
   */
  lemma FeatureLabelFallback(f: string)
    ensures f in FeatureDescriptions ==> FeatureLabel(f) == FeatureDescriptions[f]
    ensures f !in FeatureDescriptions ==>
      var rest := FeatureLabel(f)[|FallbackMarker|..];
      && FeatureLabel(f)[..|FallbackMarker|] == FallbackMarker
      && |rest| == |f|
      && (forall i :: 0 <= i < |rest| ==> rest[i] != '_' && !IsUpper(rest[i]))
      && (IsFeatureId(f) ==> Upper(ReplaceAll(rest, ' ', '_')) == f)
  {
    if f !in FeatureDescriptions {
      var shown := FeatureLabel(f);
      var rest := shown[|FallbackMarker|..];
      assert rest == Lower(ReplaceAll(f, '_', ' '));
      if IsFeatureId(f) {
        var back := Upper(ReplaceAll(rest, ' ', '_'));
        forall i | 0 <= i < |f| ensures back[i] == f[i] {
          if f[i] == '_' {
            assert rest[i] == ' ';
          } else if IsUpper(f[i]) {
            assert rest[i] == (f[i] as int + 32) as char;
          }
        }
      }
    }
  }

  /** The features counted under "Customization". */
  const CustomizationFeatures: set<string> := {"BANNER", "ANIMATED_ICON", "VANITY_URL"}

  /** The features counted under "Security". */
  const SecurityFeatures: set<string> := {"AUTO_MODERATION", "MEMBER_VERIFICATION_GATE_ENABLED"}

  predicate IsCustomization(f: string) { f in CustomizationFeatures }
  predicate IsSecurity(f: string) { f in SecurityFeatures }

  /** `features.filter(f => ['BANNER', 'ANIMATED_ICON', 'VANITY_URL'].includes(f)).length`. */
  function CustomizationCount(features: seq<string>): nat
  {
    |Filter(features, IsCustomization)|
  }

  /** `features.filter(f => ['AUTO_MODERATION', 'MEMBER_VERIFICATION_GATE_ENABLED'].includes(f)).length`. */
  function SecurityCount(features: seq<string>): nat
  {
    |Filter(features, IsSecurity)|
  }

  /**
   * On a feature list without repeats, the customisation count is the number
   * of the three visual features the server has, so at most 3.
   */
  lemma CustomizationCountBound(features: seq<string>)
    requires Distinct(features)
    ensures CustomizationCount(features) == |set f | f in features && f in CustomizationFeatures|
    ensures CustomizationCount(features) <= 3
  {
    DistinctFilterCountOf(features, IsCustomization, set f | f in features && f in CustomizationFeatures);
    FilterBoundedBy(features, IsCustomization, CustomizationFeatures);
    assert |CustomizationFeatures| == 3;
  }

  /** The same for the security count, with at most 2. */
  lemma SecurityCountBound(features: seq<string>)
    requires Distinct(features)
    ensures SecurityCount(features) == |set f | f in features && f in SecurityFeatures|
    ensures SecurityCount(features) <= 2
  {
    DistinctFilterCountOf(features, IsSecurity, set f | f in features && f in SecurityFeatures);
    FilterBoundedBy(features, IsSecurity, SecurityFeatures);
    assert |SecurityFeatures| == 2;
  }

  /** No feature is counted under both headings, so the two counts never exceed the list. */
  lemma FeatureCountsDisjoint(features: seq<string>)
    ensures CustomizationCount(features) + SecurityCount(features) <= |features|
  {
    assert CustomizationFeatures !! SecurityFeatures;
    FilterDisjointCount(features, IsCustomization, IsSecurity);
  }

  // ---------------------------------------------------------------------------
  // Verification level

  /** The five entries of the level table, in the order of the platform's level codes 0 to 4. */
  datatype VerificationLevel = NoVerification | Low | Medium | High | VeryHigh
  {
    function Code(): int
    {
      match this
      case NoVerification => 0
      case Low => 1
      case Medium => 2
      case High => 3
      case VeryHigh => 4
    }

    function Name(): string
    {
      match this
      case NoVerification => "None"
      case Low => "Low"
      case Medium => "Medium"
      case High => "High"
      case VeryHigh => "Very High"
    }
  }

  /** `levelMap[server.verificationLevel] || levelMap[GuildVerificationLevel.None]`. */
  function LevelShown(code: int): VerificationLevel
  {
    if code == 1 then Low
    else if code == 2 then Medium
    else if code == 3 then High
    else if code == 4 then VeryHigh
    else NoVerification
  }

  /**
   * A known code shows its own level, and every level is shown for its own
   * code; any other code falls back to the "None" entry.
   */
  lemma LevelShownFallback(code: int, level: VerificationLevel)
    ensures LevelShown(level.Code()) == level
    ensures LevelShown(code).Code() == code <==> 0 <= code <= 4
    ensures !(0 <= code <= 4) ==> LevelShown(code) == NoVerification
  {
  }

  // ---------------------------------------------------------------------------
  // Role colour

  /** `role.color ? '#' + role.color.toString(16).padStart(6, '0') : '#000000'`. */
  function RoleColorHex(color: nat): string
  {
    if color != 0 then "#" + PadStart(ToHex(color), 6, '0') else "#000000"
  }

  /**
   * The colour text is '#' and a numeral that reads back as the colour, and
   * it has exactly six digits exactly when the colour fits in 24 bits.
   */
  lemma RoleColorHexRoundTrip(color: nat)
    ensures RoleColorHex(color)[0] == '#'
    ensures ParseHex(RoleColorHex(color)[1..]) == color
    ensures |RoleColorHex(color)| == 7 <==> color < 0x1000000
  {
    var r := RoleColorHex(color);
    if color != 0 {
      var h := ToHex(color);
      ParseToHex(color);
      ToHexLength(color, 6);
      assert Pow16(6) == 0x1000000;
      assert r[1..] == PadStart(h, 6, '0');
      if |h| < 6 {
        assert PadStart(h, 6, '0') == seq(6 - |h|, _ => '0') + h;
        ParseLeadingZeros(6 - |h|, h);
      }
    } else {
      assert r[1..] == "000000";
      assert "000000" == seq(6, _ => '0');
      ZerosParseToZero(6);
    }
  }
}
