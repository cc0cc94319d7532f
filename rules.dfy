/** The deterministic rules inside the handlers: the coin toss tally, the
    weather city, the search terms for the social networks and the part of
    a Wikipedia summary that is read out. */
module Rules {
  import opened Tokens

  /** `toss_coin` flips three times. */
  const FLIPS_COUNT: nat := 3

  /** The side that wins a toss, by the rule of `toss_coin`: tails when
      tails outnumber heads, heads otherwise (a tie goes to heads). On an
      odd number of flips that is the side most of the flips came up on. */
  function Winner(flips: seq<int>): (r: string)
    ensures r == "Heads" || r == "Tails"
    ensures 2 * multiset(flips)[0] == |flips| ==> r == "Heads"
    ensures |flips| % 2 == 1 ==> (r == "Heads" <==> 2 * multiset(flips)[0] > |flips|)
  {
    var heads := multiset(flips)[0];
    var tails := |flips| - heads;
    if tails > heads then "Tails" else "Heads"
  }

  /** The tally of `toss_coin` over the three draws of `random.randint(0, 1)`,
      given here as `flips`: a 0 is heads, anything else tails. The number of
      flips is odd, so there is never a tie and the majority side wins. */
  method FlipCoins(flips: seq<int>) returns (heads: nat, tails: nat, winner: string)
    requires |flips| == FLIPS_COUNT
    ensures heads == multiset(flips)[0]
    ensures heads + tails == FLIPS_COUNT
    ensures heads != tails
    ensures winner == "Tails" <==> tails > heads
    ensures winner == "Heads" <==> heads > tails
    ensures winner == Winner(flips)
  {
    heads := 0;
    for i := 0 to FLIPS_COUNT
      invariant heads == multiset(flips[..i])[0]
      invariant heads <= i
    {
      assert flips[..i + 1] == flips[..i] + [flips[i]];
      if flips[i] == 0 {
        heads := heads + 1;
      }
    }
    assert flips[..FLIPS_COUNT] == flips;
    tails := FLIPS_COUNT - heads;
    winner := if tails > heads then "Tails" else "Heads";
  }

  /** The city `get_weather_forecast` asks for: the first argument word if
      there is one (even an empty word), the owner's home city otherwise. */
  function WeatherCity(args: seq<string>, homeCity: string): (city: string)
    ensures args == [] ==> city == homeCity
    ensures args != [] ==> city == args[0]
  {
    if args != [] then args[0] else homeCity
  }

  /** For a recognised utterance, the weather city is the word after the
      command when the utterance has a space, and the home city otherwise. */
  lemma WeatherCityOfUtterance(recognized: string, homeCity: string)
    ensures WeatherCity(Tokenize(recognized).options, homeCity)
         == if ' ' in recognized then Split(recognized, ' ')[1] else homeCity
  {
    var u := Tokenize(recognized);
    assert ' ' in recognized <==> multiset(recognized)[' '] > 0;
    if ' ' in recognized {
      assert u.options == Split(recognized, ' ')[1..];
    }
  }

  /** The three search terms of `run_person_through_social_nets_databases`. */
  datatype SocialTerms = SocialTerms(google: string, vk: string, facebook: string)

  function SocialSearchTerms(args: seq<string>): (t: SocialTerms)
    ensures args == [] ==> t == SocialTerms("", "", "")
    ensures |args| == 1 ==> t == SocialTerms(args[0], args[0], args[0])
    ensures |t.google| == |t.vk| == |t.facebook|
  {
    assert args != [] ==> |Join(args, " ")| == |Join(args, "_")| == |Join(args, "-")| by {
      if args != [] {
        JoinLength(args, " ");
        JoinLength(args, "_");
        JoinLength(args, "-");
      }
    }
    SocialTerms(Join(args, " "), Join(args, "_"), Join(args, "-"))
  }

  /** The three terms carry the same words: each one splits back on its own
      separator into the argument words, when no word contains a separator. */
  lemma SocialTermsRecoverWords(args: seq<string>)
    requires |args| >= 1
    requires forall k :: 0 <= k < |args| ==> ' ' !in args[k] && '_' !in args[k] && '-' !in args[k]
    ensures var t := SocialSearchTerms(args);
      Split(t.google, ' ') == args && Split(t.vk, '_') == args && Split(t.facebook, '-') == args
  {
    SplitJoin(args, ' ');
    SplitJoin(args, '_');
    SplitJoin(args, '-');
  }

  /** `wiki_page.summary.split(".")[:2]`: at most the first two sentences,
      two exactly when the summary contains a full stop. */
  function FirstSentences(summary: string): (sentences: seq<string>)
    ensures |sentences| == if '.' in summary then 2 else 1
    ensures |sentences| <= |Split(summary, '.')| && sentences == Split(summary, '.')[..|sentences|]
    ensures forall k :: 0 <= k < |sentences| ==> '.' !in sentences[k]
  {
    var pieces := Split(summary, '.');
    SplitCount(summary, '.');
    assert '.' in summary <==> multiset(summary)['.'] > 0;
    if |pieces| < 2 then pieces else pieces[..2]
  }
}
