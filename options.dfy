/** Per-call configuration and its two-level merge (src/options.rs). */
module Options {
  import opened Wrappers

  /** OpenAI-shaped options; every field optional. */
  datatype OpenAIModelOptions = OpenAIModelOptions(baseUrl: Option<string>, model: Option<string>, apiKey: Option<string>)

  /** The provider-tagged options: one real variant and a catch-all. */
  datatype ModelOptions = OpenAI(options: OpenAIModelOptions) | Whatever

  /** The borrowed view returned by `borrow` and `merge`: the same fields, referring into the inputs. */
  datatype BorrowedOpenAIModelOptions = BorrowedOpenAIModelOptions(model: Option<string>, baseUrl: Option<string>, apiKey: Option<string>)

  datatype BorrowedModelOptions = BorrowedOpenAI(options: BorrowedOpenAIModelOptions) | BorrowedWhatever

  /** `ModelOptions::default()`. */
  function Default(): (o: ModelOptions)
    ensures o.Whatever?
  {
    Whatever
  }

  /** `OpenAIModelOptions::new()`: nothing set. */
  function New(): (o: OpenAIModelOptions)
    ensures o.baseUrl.None? && o.model.None? && o.apiKey.None?
  {
    OpenAIModelOptions(None, None, None)
  }

  /** `ModelOptions::openai()`: a fresh, empty OpenAI options value. */
  function OpenAIBuilder(): (o: OpenAIModelOptions)
    ensures o == New()
  {
    New()
  }

  /** `model(v)`: sets the model and nothing else. */
  function WithModel(o: OpenAIModelOptions, model: string): (r: OpenAIModelOptions)
    ensures r.model == Some(model)
    ensures r.baseUrl == o.baseUrl && r.apiKey == o.apiKey
  {
    o.(model := Some(model))
  }

  /** `base_url(v)`: sets the endpoint and nothing else. */
  function WithBaseUrl(o: OpenAIModelOptions, baseUrl: string): (r: OpenAIModelOptions)
    ensures r.baseUrl == Some(baseUrl)
    ensures r.model == o.model && r.apiKey == o.apiKey
  {
    o.(baseUrl := Some(baseUrl))
  }

  /** `api_key(v)`: sets the credential and nothing else. */
  function WithApiKey(o: OpenAIModelOptions, apiKey: string): (r: OpenAIModelOptions)
    ensures r.apiKey == Some(apiKey)
    ensures r.baseUrl == o.baseUrl && r.model == o.model
  {
    o.(apiKey := Some(apiKey))
  }

  /** `From<OpenAIModelOptions> for ModelOptions`. */
  function FromOpenAI(o: OpenAIModelOptions): (r: ModelOptions)
    ensures r.OpenAI? && r.options == o
  {
    OpenAI(o)
  }

  /** `OpenAIModelOptions::borrow`: a view with every field unchanged. */
  function BorrowOpenAI(o: OpenAIModelOptions): (b: BorrowedOpenAIModelOptions)
    ensures b.model == o.model && b.baseUrl == o.baseUrl && b.apiKey == o.apiKey
  {
    BorrowedOpenAIModelOptions(o.model, o.baseUrl, o.apiKey)
  }

  /** Cloning a borrowed view back into owned options (what a caller does with `to_owned`). */
  function ToOwned(b: BorrowedOpenAIModelOptions): (o: OpenAIModelOptions)
    ensures BorrowOpenAI(o) == b
  {
    OpenAIModelOptions(b.baseUrl, b.model, b.apiKey)
  }

  /** `OpenAIModelOptions::merge(self, other)`: field by field, `other.f.or(self.f)`. */
  function MergeOpenAI(base: OpenAIModelOptions, override: OpenAIModelOptions): (b: BorrowedOpenAIModelOptions)
    ensures b.model == (if override.model.Some? then override.model else base.model)
    ensures b.baseUrl == (if override.baseUrl.Some? then override.baseUrl else base.baseUrl)
    ensures b.apiKey == (if override.apiKey.Some? then override.apiKey else base.apiKey)
  {
    BorrowedOpenAIModelOptions(
      override.model.Or(base.model),
      override.baseUrl.Or(base.baseUrl),
      override.apiKey.Or(base.apiKey))
  }

  /** `From<BorrowedOpenAIModelOptions> for BorrowedModelOptions`. */
  function FromBorrowedOpenAI(b: BorrowedOpenAIModelOptions): (r: BorrowedModelOptions)
    ensures r.BorrowedOpenAI? && r.options == b
  {
    BorrowedOpenAI(b)
  }

  /** `ModelOptions::borrow`: the same variant, with the fields viewed unchanged. */
  function Borrow(o: ModelOptions): (b: BorrowedModelOptions)
    ensures b.BorrowedWhatever? <==> o.Whatever?
    ensures o.OpenAI? ==> b.options == BorrowOpenAI(o.options)
  {
    match o
    case OpenAI(options) => FromBorrowedOpenAI(BorrowOpenAI(options))
    case Whatever => BorrowedWhatever
  }

  /**
   * `ModelOptions::merge(self, other)`, its three arms in order: two OpenAI values
   * merge field-wise; an override `Whatever` gives the base's view; a base
   * `Whatever` gives the override's view.
   */
  function Merge(base: ModelOptions, override: ModelOptions): (b: BorrowedModelOptions)
    ensures base.OpenAI? && override.OpenAI? ==> b == BorrowedOpenAI(MergeOpenAI(base.options, override.options))
    ensures override.Whatever? ==> b == Borrow(base)
    ensures base.Whatever? ==> b == Borrow(override)
  {
    match (base, override)
    case (OpenAI(options), OpenAI(otherOptions)) => FromBorrowedOpenAI(MergeOpenAI(options, otherOptions))
    case (_, Whatever) => Borrow(base)
    case (Whatever, _) => Borrow(override)
  }

  /** An empty override leaves the base's fields as they are. */
  lemma MergeWithNewIsBorrow(base: OpenAIModelOptions)
    ensures MergeOpenAI(base, New()) == BorrowOpenAI(base)
  {
  }

  /** Merging the same override again into a merged value changes nothing. */
  lemma MergeIdempotent(base: OpenAIModelOptions, override: OpenAIModelOptions)
    ensures MergeOpenAI(ToOwned(MergeOpenAI(base, override)), override) == MergeOpenAI(base, override)
  {
  }

  /** Merging is associative: later overrides beat earlier ones, however grouped. */
  lemma MergeAssociative(a: OpenAIModelOptions, b: OpenAIModelOptions, c: OpenAIModelOptions)
    ensures MergeOpenAI(ToOwned(MergeOpenAI(a, b)), c) == MergeOpenAI(a, ToOwned(MergeOpenAI(b, c)))
  {
  }

  /**
   * The merge is `Whatever` exactly when both inputs are; this is the only case
   * in which the chat entry points (src/models/chat/mod.rs:15-20) reach their panic.
   */
  lemma MergeIsWhateverIff(base: ModelOptions, override: ModelOptions)
    ensures Merge(base, override).BorrowedWhatever? <==> base.Whatever? && override.Whatever?
  {
  }

  /** The default options are neutral on either side of a merge. */
  lemma DefaultIsNeutral(o: ModelOptions)
    ensures Merge(o, Default()) == Borrow(o)
    ensures Merge(Default(), o) == Borrow(o)
  {
  }

  /** A per-call model with a model-level endpoint: each side contributes what it sets. */
  lemma MergeExample()
    ensures MergeOpenAI(WithBaseUrl(New(), "a"), WithModel(New(), "m"))
         == BorrowedOpenAIModelOptions(Some("m"), Some("a"), None)
  {
  }
}
