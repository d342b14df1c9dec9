/**
 * Destination resolution: the incoming bot id is replaced by the bot id of
 * the first sub-bot, in configuration order, one of whose keywords occurs in
 * the title, ignoring case. Only configurations whose main bot id equals the
 * incoming bot id take part; without a match the incoming bot id is kept.
 */
module Routing {
  import opened Wrappers
  import opened Strings

  /** One entry of a configuration's `sub_bots` list. */
  datatype SubBot = SubBot(botId: string, keywords: seq<string>)

  /** One record of the bot configuration list. */
  datatype BotConfig = BotConfig(mainBotId: string, subBots: seq<SubBot>)

  /** `keyword.lower() in title.lower()`. */
  predicate KeywordMatches(keyword: string, title: string)
  {
    Contains(Lower(title), Lower(keyword))
  }

  // ---------------------------------------------------------------------
  // The specification, one level of the configuration at a time.
  // ---------------------------------------------------------------------

  /** Some keyword of the list matches the title. */
  predicate AnyKeyword(keywords: seq<string>, title: string)
  {
    keywords != [] && (KeywordMatches(keywords[0], title) || AnyKeyword(keywords[1..], title))
  }

  /** The bot id of the first sub-bot with a matching keyword, if any. */
  function SubBotRoute(subBots: seq<SubBot>, title: string): Option<string>
  {
    if subBots == [] then None
    else if AnyKeyword(subBots[0].keywords, title) then Some(subBots[0].botId)
    else SubBotRoute(subBots[1..], title)
  }

  /**
   * The bot id a message to `botId` with this title is sent through: the
   * first configuration for `botId` whose sub-bots yield a match decides;
   * configurations for other bots and configurations without a match are
   * passed over; with no match at all the incoming bot id is kept.
   */
  function Route(configs: seq<BotConfig>, botId: string, title: string): string
  {
    if configs == [] then botId
    else if configs[0].mainBotId == botId && SubBotRoute(configs[0].subBots, title).Some?
    then SubBotRoute(configs[0].subBots, title).value
    else Route(configs[1..], botId, title)
  }

  // ---------------------------------------------------------------------
  // The same, stated over (configuration, sub-bot, keyword) index triples.
  // ---------------------------------------------------------------------

  /** Keyword `k` of sub-bot `j` of configuration `i` is a hit for this message. */
  predicate Hit(configs: seq<BotConfig>, botId: string, title: string, i: int, j: int, k: int)
  {
    0 <= i < |configs| && configs[i].mainBotId == botId &&
    0 <= j < |configs[i].subBots| &&
    0 <= k < |configs[i].subBots[j].keywords| &&
    KeywordMatches(configs[i].subBots[j].keywords[k], title)
  }

  /** Lexicographic order on index triples: the order the scan visits them. */
  predicate Before(i: int, j: int, k: int, i': int, j': int, k': int)
  {
    i < i' || (i == i' && (j < j' || (j == j' && k < k')))
  }

  /** The triple `(i, j, k)` is the first hit the scan meets. */
  ghost predicate FirstHit(configs: seq<BotConfig>, botId: string, title: string, i: int, j: int, k: int)
  {
    Hit(configs, botId, title, i, j, k) &&
    forall i', j', k' :: Before(i', j', k', i, j, k) ==> !Hit(configs, botId, title, i', j', k')
  }

  /** Keyword `k` of sub-bot `j` matches; the two-level form of `Hit`. */
  predicate SubHit(subBots: seq<SubBot>, title: string, j: int, k: int)
  {
    0 <= j < |subBots| && 0 <= k < |subBots[j].keywords| &&
    KeywordMatches(subBots[j].keywords[k], title)
  }

  /** The index of the first matching keyword, when there is one. */
  lemma {:induction false} FirstKeyword(keywords: seq<string>, title: string) returns (k: int)
    ensures AnyKeyword(keywords, title) ==>
      0 <= k < |keywords| && KeywordMatches(keywords[k], title) &&
      forall k' :: 0 <= k' < k ==> !KeywordMatches(keywords[k'], title)
    ensures !AnyKeyword(keywords, title) ==>
      forall k' :: 0 <= k' < |keywords| ==> !KeywordMatches(keywords[k'], title)
  {
    if keywords == [] {
      k := 0;
    } else if KeywordMatches(keywords[0], title) {
      k := 0;
    } else {
      var k1 := FirstKeyword(keywords[1..], title);
      k := k1 + 1;
      forall k' | 0 <= k' < |keywords| && (AnyKeyword(keywords, title) ==> k' < k)
        ensures !KeywordMatches(keywords[k'], title)
      {
        if k' > 0 {
          assert keywords[k'] == keywords[1..][k' - 1];
        }
      }
    }
  }

  /** The first matching (sub-bot, keyword) pair, when `SubBotRoute` finds one. */
  lemma {:induction false} FirstSubBot(subBots: seq<SubBot>, title: string) returns (j: int, k: int)
    ensures SubBotRoute(subBots, title).Some? ==>
      SubHit(subBots, title, j, k) && SubBotRoute(subBots, title) == Some(subBots[j].botId) &&
      forall j', k' :: (j' < j || (j' == j && k' < k)) ==> !SubHit(subBots, title, j', k')
    ensures SubBotRoute(subBots, title).None? ==>
      forall j', k' :: !SubHit(subBots, title, j', k')
  {
    if subBots == [] {
      j, k := 0, 0;
    } else {
      var k0 := FirstKeyword(subBots[0].keywords, title);
      if AnyKeyword(subBots[0].keywords, title) {
        j, k := 0, k0;
      } else {
        var j1, k1 := FirstSubBot(subBots[1..], title);
        j, k := j1 + 1, k1;
        forall j', k' | SubHit(subBots, title, j', k')
          ensures SubBotRoute(subBots, title).Some? && !(j' < j || (j' == j && k' < k))
        {
          assert j' != 0;
          assert SubHit(subBots[1..], title, j' - 1, k');
        }
      }
    }
  }

  /**
   * The scan is sound and complete: either there is no hit at all and the
   * bot id is kept, or `Route` yields the bot id of the sub-bot of the first
   * hit in scan order.
   */
  lemma {:induction false} RouteCases(configs: seq<BotConfig>, botId: string, title: string)
    returns (found: bool, i: int, j: int, k: int)
    ensures found ==>
      FirstHit(configs, botId, title, i, j, k) &&
      Route(configs, botId, title) == configs[i].subBots[j].botId
    ensures !found ==>
      (forall i', j', k' :: !Hit(configs, botId, title, i', j', k')) &&
      Route(configs, botId, title) == botId
  {
    if configs == [] {
      found, i, j, k := false, 0, 0, 0;
    } else {
      var j0, k0 := FirstSubBot(configs[0].subBots, title);
      if configs[0].mainBotId == botId && SubBotRoute(configs[0].subBots, title).Some? {
        found, i, j, k := true, 0, j0, k0;
        forall i', j', k' | Before(i', j', k', i, j, k)
          ensures !Hit(configs, botId, title, i', j', k')
        {
          if i' == 0 && 0 <= j' < |configs[0].subBots| && 0 <= k' < |configs[0].subBots[j'].keywords| {
            assert Hit(configs, botId, title, i', j', k') == SubHit(configs[0].subBots, title, j', k');
          }
        }
      } else {
        var i1;
        found, i1, j, k := RouteCases(configs[1..], botId, title);
        i := i1 + 1;
        forall i', j', k' | Hit(configs, botId, title, i', j', k')
          ensures found && !Before(i', j', k', i, j, k)
        {
          if i' == 0 {
            assert SubHit(configs[0].subBots, title, j', k');
          }
          assert Hit(configs[1..], botId, title, i' - 1, j', k');
        }
      }
    }
  }

  /** Two first hits are the same triple. */
  lemma FirstHitUnique(configs: seq<BotConfig>, botId: string, title: string,
                       i: int, j: int, k: int, i': int, j': int, k': int)
    requires FirstHit(configs, botId, title, i, j, k)
    requires FirstHit(configs, botId, title, i', j', k')
    ensures i == i' && j == j' && k == k'
  {
  }

  /**
   * First-match routing: when `(i, j, k)` is the first hit in scan order the
   * message goes to sub-bot `j` of configuration `i`, even when later
   * configurations or sub-bots also match.
   */
  lemma RouteFirstMatch(configs: seq<BotConfig>, botId: string, title: string, i: int, j: int, k: int)
    requires FirstHit(configs, botId, title, i, j, k)
    ensures Route(configs, botId, title) == configs[i].subBots[j].botId
  {
    var found, i1, j1, k1 := RouteCases(configs, botId, title);
    assert Hit(configs, botId, title, i, j, k);
    FirstHitUnique(configs, botId, title, i, j, k, i1, j1, k1);
  }

  /** Identity fallback: when no keyword of any applicable sub-bot matches, the bot id is kept. */
  lemma RouteFallback(configs: seq<BotConfig>, botId: string, title: string)
    requires forall i, j, k :: !Hit(configs, botId, title, i, j, k)
    ensures Route(configs, botId, title) == botId
  {
    var found, i, j, k := RouteCases(configs, botId, title);
  }

  /** Routing ignores the case of the title's ASCII letters. */
  lemma {:induction false} RouteIgnoresCase(configs: seq<BotConfig>, botId: string, title: string, title': string)
    requires Lower(title) == Lower(title')
    ensures Route(configs, botId, title) == Route(configs, botId, title')
  {
    forall i, j, k ensures Hit(configs, botId, title, i, j, k) == Hit(configs, botId, title', i, j, k) { }
    var found, i, j, k := RouteCases(configs, botId, title);
    var found', i', j', k' := RouteCases(configs, botId, title');
    if found && found' {
      FirstHitUnique(configs, botId, title, i, j, k, i', j', k');
    }
  }

  // ---------------------------------------------------------------------
  // The routing loop of `send_telegram_message`.
  // ---------------------------------------------------------------------

  /**
   * The nested scan over configurations, sub-bots and keywords, with the
   * `found` flag and the early exits of `send_telegram_message`.
   */
  method ResolveBotId(configs: seq<BotConfig>, botId: string, title: string) returns (routed: string)
    ensures routed == Route(configs, botId, title)
  {
    routed := botId;
    var found := false;
    var i := 0;
    while i < |configs|
      invariant 0 <= i <= |configs|
      invariant !found && routed == botId
      invariant Route(configs, botId, title) == Route(configs[i..], botId, title)
    {
      var config := configs[i];
      if routed == config.mainBotId {
        var j := 0;
        while j < |config.subBots|
          invariant 0 <= j <= |config.subBots|
          invariant !found && routed == botId
          invariant SubBotRoute(config.subBots, title) == SubBotRoute(config.subBots[j..], title)
        {
          var subBot := config.subBots[j];
          var k := 0;
          while k < |subBot.keywords|
            invariant 0 <= k <= |subBot.keywords|
            invariant !found && routed == botId
            invariant AnyKeyword(subBot.keywords, title) == AnyKeyword(subBot.keywords[k..], title)
          {
            if Contains(Lower(title), Lower(subBot.keywords[k])) {
              routed := subBot.botId;
              found := true;
              break;
            }
            k := k + 1;
          }
          if found {
            break;
          }
          j := j + 1;
        }
        if found {
          break;
        }
      }
      i := i + 1;
    }
  }
}
