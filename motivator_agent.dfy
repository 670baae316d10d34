/** The motivator agent: it loads (or creates) the learner's profile, asks a quote scraper for the
    profile's guide, lets a language model write the message and records when the learner was
    last motivated. The scraper, the model and the clock are parameters; the profile store is the
    map-backed store of `UserProfiles`. */
module MotivatorAgents {
  import opened Wrappers
  import opened DateTimes
  import opened UserProfiles

  /** The parts of a scraped quote the agent uses. */
  datatype Quote = Quote(text: string, persona: string, sourceUrl: Option<string>)

  /** `scrape_quotes(persona, limit)`: quotes, or the text of what it raised. */
  type Scraper = (string, nat) -> Result<seq<Quote>, string>

  /** `MotivationLLM.generate(persona=…, quote=…, profile=…)` */
  type MotivationModel = (string, Quote, ProfileRecord) -> Result<string, string>

  /** `MotivationMessage` */
  datatype MotivationMessage = MotivationMessage(text: string, source: string, personaStyle: string,
                                                 userName: Option<string>, timestamp: DateTime)

  /** What `craft_personalized_message` raises: its own errors, or what a collaborator raised. */
  datatype MotivatorError = ValueError(message: string) | ImportError(message: string)
                          | RuntimeError(message: string) | Raised(message: string)

  const QuoteLimit: nat := 3
  const WebSearchSource: string := "web_search"
  const NoScraperText: string := "WebSearchQuoteScraper is not available. Ensure quote_scraper.py is imported correctly."
  const NoModelText: string := "LLM is required for personalized message generation"

  /** The guide a profile names, or the default one when it names none. */
  function PersonaOf(r: ProfileRecord): (persona: string)
    ensures persona != ""
    ensures r.primaryPersona != "" ==> persona == r.primaryPersona
  {
    if r.primaryPersona != "" then r.primaryPersona else DefaultPersona
  }

  /** The profile `_load_profile` works with: the saved one, or a new one named after the id. */
  function ProfileFor(files: map<string, ProfileRecord>, root: string, userId: string): ProfileRecord {
    match LoadFrom(files, root, userId)
    case Ok(r) => r
    case Err(_) => DefaultProfile(userId, userId)
  }

  /** The files after `_load_profile`: unchanged when the profile was there, with the new one
      saved otherwise. */
  function FilesAfterLoad(files: map<string, ProfileRecord>, root: string, userId: string): map<string, ProfileRecord> {
    if LoadFrom(files, root, userId).Ok? then files else SaveTo(files, root, DefaultProfile(userId, userId))
  }

  /** After `_load_profile` the user's file holds the profile it returned. */
  lemma LoadProfileStores(files: map<string, ProfileRecord>, root: string, userId: string)
    ensures LoadFrom(FilesAfterLoad(files, root, userId), root, userId) == Ok(ProfileFor(files, root, userId))
    ensures LoadFrom(files, root, userId).Err? ==>
              ProfileFor(files, root, userId) == DefaultProfile(userId, userId)
              && ProfileFor(files, root, userId).name == userId
  {
    if LoadFrom(files, root, userId).Err? {
      LoadAfterSave(files, root, DefaultProfile(userId, userId), userId);
    }
  }

  /** Where a message's quote came from: its address, or the web search in general. */
  function SourceOf(q: Quote): string {
    if q.sourceUrl.Some? && q.sourceUrl.value != "" then q.sourceUrl.value else WebSearchSource
  }

  /** The message for a loaded profile: the scraper (the one given, or else the default one when it
      is available) asked for three quotes of the profile's guide, none being an error; then the
      model, which must be present, writing from the first quote. */
  function Motivation(profile: ProfileRecord, scraper: Option<Scraper>, defaultScraper: Option<Scraper>,
                      model: Option<MotivationModel>, now: DateTime): (r: Result<MotivationMessage, MotivatorError>)
    ensures scraper.None? && defaultScraper.None? ==> r == Err(ImportError(NoScraperText))
    ensures r.Ok? ==> r.value.personaStyle == PersonaOf(profile) && r.value.userName == Some(profile.name)
                      && r.value.timestamp == now && model.Some?
  {
    var persona := PersonaOf(profile);
    var scrape :- if scraper.Some? then Ok(scraper.value)
                  else if defaultScraper.Some? then Ok(defaultScraper.value)
                  else Err(ImportError(NoScraperText));
    var quotes :- match scrape(persona, QuoteLimit) case Ok(qs) => Ok(qs) case Err(e) => Err(Raised(e));
    if quotes == [] then Err(RuntimeError("No quotes found for persona: " + persona))
    else if model.None? then Err(RuntimeError(NoModelText))
    else
      var text :- match model.value(persona, quotes[0], profile) case Ok(t) => Ok(t) case Err(e) => Err(Raised(e));
      Ok(MotivationMessage(text, SourceOf(quotes[0]), persona, Some(profile.name), now))
  }

  /** The scraper is consulted before the model: when it finds no quotes, that is the error, whether
      there is a model or not. */
  lemma ScrapingComesFirst(profile: ProfileRecord, scrape: Scraper, model: Option<MotivationModel>, now: DateTime)
    requires scrape(PersonaOf(profile), QuoteLimit) == Ok([])
    ensures Motivation(profile, Some(scrape), None, model, now)
            == Err(RuntimeError("No quotes found for persona: " + PersonaOf(profile)))
  {
  }

  /** With quotes and a model, the message is the model's text about the first quote, with that
      quote's source. */
  lemma MessageFromFirstQuote(profile: ProfileRecord, scrape: Scraper, model: MotivationModel, now: DateTime)
    requires scrape(PersonaOf(profile), QuoteLimit).Ok? && scrape(PersonaOf(profile), QuoteLimit).value != []
    requires model(PersonaOf(profile), scrape(PersonaOf(profile), QuoteLimit).value[0], profile).Ok?
    ensures var q := scrape(PersonaOf(profile), QuoteLimit).value[0];
            Motivation(profile, Some(scrape), None, Some(model), now)
            == Ok(MotivationMessage(model(PersonaOf(profile), q, profile).value, SourceOf(q), PersonaOf(profile),
                                    Some(profile.name), now))
  {
  }

  /** `MotivatorAgent`: an optional profile store and an optional model. */
  class MotivatorAgent {
    const store: UserProfileStore?
    const model: Option<MotivationModel>

    constructor(store: UserProfileStore?, model: Option<MotivationModel>)
      ensures this.store == store && this.model == model
    {
      this.store := store;
      this.model := model;
    }

    /** `_load_profile`: the saved profile, or a new one named after the id, saved first. */
    method LoadProfile(userId: string) returns (profile: UserProfile)
      requires store != null
      modifies store
      ensures fresh(profile)
      ensures profile.Record() == ProfileFor(old(store.files), store.root, userId)
      ensures store.files == FilesAfterLoad(old(store.files), store.root, userId)
    {
      var loaded := store.Load(userId);
      if loaded.Ok? {
        return loaded.value;
      }
      profile := new UserProfile(DefaultProfile(userId, userId));
      store.Save(profile);
    }

    /** `craft_personalized_message`: no store is an error before anything else; otherwise the
        profile is loaded or created, the message is made, and on success the profile records the
        message's time and is saved again. */
    method CraftPersonalizedMessage(userId: string, scraper: Option<Scraper>, defaultScraper: Option<Scraper>,
                                    now: DateTime) returns (r: Result<MotivationMessage, MotivatorError>)
      modifies if store != null then {store} else {}
      ensures store == null ==> r == Err(ValueError("No profile found for user_id: " + userId))
      ensures store != null ==>
                var profile := ProfileFor(old(store.files), store.root, userId);
                var loaded := FilesAfterLoad(old(store.files), store.root, userId);
                && r == Motivation(profile, scraper, defaultScraper, model, now)
                && (r.Err? ==> store.files == loaded)
                && (r.Ok? ==> store.files == SaveTo(loaded, store.root, profile.(lastMotivationAt := Some(now))))
    {
      if store == null {
        return Err(ValueError("No profile found for user_id: " + userId));
      }
      var profile := LoadProfile(userId);
      var record := profile.Record();
      r := Motivation(record, scraper, defaultScraper, model, now);
      if r.Ok? {
        profile.lastMotivationAt := Some(r.value.timestamp);
        store.Save(profile);
      }
    }
  }
}
