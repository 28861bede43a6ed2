/** The validation of the "new contribution proposal" form. Validation
    writes its checks one after another into an error map, and a later
    write to the same field replaces an earlier one. */
module ProposalForm {
  import opened Wrappers

  /** The form's values. Reward amounts are in ether. */
  datatype FormValues = FormValues(
    beneficiary: string,
    description: string,
    ethReward: real,
    externalToken: string,
    externalTokenReward: real,
    nativeTokenReward: real,
    reputationReward: real,
    title: string,
    url: string)

  /** The keys an error can be reported under. */
  datatype Field =
    | Title | Description | Beneficiary | Url
    | EthReward | ExternalTokenReward | NativeTokenReward | ReputationReward
    | Rewards

  /** The messages validation writes. */
  datatype Message =
    | TitleTooLong | MustBeUnique | InvalidAddress | InvalidUrl
    | NegativeReward | Required | NoReward

  /** The text the form shows for each message. The contracts speak of
      `Message` values; this function only records the texts behind them. */
  function MessageText(m: Message): string
  {
    match m
    case TitleTooLong => "Title is too long (max 120 characters)"
    case MustBeUnique => "Must be unique"
    case InvalidAddress => "Invalid address"
    case InvalidUrl => "Invalid URL"
    case NegativeReward => "Please enter a non-negative reward"
    case Required => "Required"
    case NoReward => "Please select at least some reward"
  }

  /** No two messages share a text, so a shown error names its rule. */
  lemma MessageTextsDistinct(m1: Message, m2: Message)
    ensures m1 != m2 ==> MessageText(m1) != MessageText(m2)
  {
  }

  /** The error object: for each key, the message written there, if any. */
  datatype Errors = Errors(
    title: Option<Message>,
    description: Option<Message>,
    beneficiary: Option<Message>,
    url: Option<Message>,
    ethReward: Option<Message>,
    externalTokenReward: Option<Message>,
    nativeTokenReward: Option<Message>,
    reputationReward: Option<Message>,
    rewards: Option<Message>)

  const NoErrors: Errors := Errors(None, None, None, None, None, None, None, None, None)

  /** `errors[f]`: the message under key `f`, if any. */
  function Get(errors: Errors, f: Field): Option<Message>
  {
    match f
    case Title => errors.title
    case Description => errors.description
    case Beneficiary => errors.beneficiary
    case Url => errors.url
    case EthReward => errors.ethReward
    case ExternalTokenReward => errors.externalTokenReward
    case NativeTokenReward => errors.nativeTokenReward
    case ReputationReward => errors.reputationReward
    case Rewards => errors.rewards
  }

  const MaxTitleLength: nat := 120

  /** The keys validation can ever complain about. */
  const Reported: set<Field> :=
    {Title, Description, Beneficiary, Url, EthReward, ExternalTokenReward, NativeTokenReward, Rewards}

  /** One write of the sequence: when `fires`, `f` gets `message`. */
  function Write(errors: Errors, fires: bool, f: Field, message: Message): (r: Errors)
  {
    match f
    case Title => errors.(title := if fires then Some(message) else errors.title)
    case Description => errors.(description := if fires then Some(message) else errors.description)
    case Beneficiary => errors.(beneficiary := if fires then Some(message) else errors.beneficiary)
    case Url => errors.(url := if fires then Some(message) else errors.url)
    case EthReward => errors.(ethReward := if fires then Some(message) else errors.ethReward)
    case ExternalTokenReward => errors.(externalTokenReward := if fires then Some(message) else errors.externalTokenReward)
    case NativeTokenReward => errors.(nativeTokenReward := if fires then Some(message) else errors.nativeTokenReward)
    case ReputationReward => errors.(reputationReward := if fires then Some(message) else errors.reputationReward)
    case Rewards => errors.(rewards := if fires then Some(message) else errors.rewards)
  }

  /** A write changes its own key only, and when it fires it replaces
      whatever an earlier write left there. */
  lemma WriteReplaces(errors: Errors, fires: bool, f: Field, message: Message)
    ensures Get(Write(errors, fires, f, message), f) == if fires then Some(message) else Get(errors, f)
    ensures forall g :: g != f ==> Get(Write(errors, fires, f, message), g) == Get(errors, g)
  {
  }

  /** No reward of any kind: all four amounts are zero (falsy). */
  predicate NoRewardGiven(v: FormValues)
  {
    v.ethReward == 0.0 && v.reputationReward == 0.0 && v.externalTokenReward == 0.0 && v.nativeTokenReward == 0.0
  }

  /** What each field finally reports, stated field by field: the last
      check in the sequence that fires on a field decides its message.
      `addressOk` and `urlOk` are the verdicts of the address check on the
      recipient and of the URL pattern on the URL. */
  function FieldError(v: FormValues, descriptions: seq<string>, addressOk: bool, urlOk: bool,
                      f: Field): Option<Message>
  {
    match f
    case Title =>
      if v.title == "" then Some(Required)
      else if |v.title| > MaxTitleLength then Some(TitleTooLong)
      else None
    case Description =>
      if v.description == "" then Some(Required)
      else if v.description in descriptions then Some(MustBeUnique)
      else None
    case Beneficiary =>
      if v.beneficiary == "" then Some(Required)
      else if !addressOk then Some(InvalidAddress)
      else None
    case Url => if v.url != "" && !urlOk then Some(InvalidUrl) else None
    case EthReward => if v.ethReward < 0.0 then Some(NegativeReward) else None
    case ExternalTokenReward => if v.externalTokenReward < 0.0 then Some(NegativeReward) else None
    case NativeTokenReward => if v.nativeTokenReward < 0.0 then Some(NegativeReward) else None
    case ReputationReward => None
    case Rewards => if NoRewardGiven(v) then Some(NoReward) else None
  }

  /** The form's `require(name)`: an empty text marks the field "Required". */
  function Require(errors: Errors, text: string, f: Field): (r: Errors)
    ensures text == "" ==> Get(r, f) == Some(Required)
    ensures text != "" ==> r == errors
    ensures forall g :: g != f ==> Get(r, g) == Get(errors, g)
  {
    Write(errors, text == "", f, Required)
  }

  /** The form's `nonNegative(name)`: a negative amount marks the field. */
  function NonNegative(errors: Errors, amount: real, f: Field): (r: Errors)
    ensures amount < 0.0 ==> Get(r, f) == Some(NegativeReward)
    ensures amount >= 0.0 ==> r == errors
    ensures forall g :: g != f ==> Get(r, g) == Get(errors, g)
  {
    Write(errors, amount < 0.0, f, NegativeReward)
  }

  /** The form's `validate`, writing its checks in the form's order.
      `descriptions` are the descriptions a new one must differ from;
      `isAddress` and `urlPattern` stand for the address check and the URL
      regular expression. */
  function Validate(v: FormValues, descriptions: seq<string>, isAddress: string -> bool,
                    urlPattern: string -> bool): (errors: Errors)
    ensures forall f :: Get(errors, f) == FieldError(v, descriptions, isAddress(v.beneficiary), urlPattern(v.url), f)
  {
    var e0 := NoErrors;
    var e1 := Write(e0, |v.title| > MaxTitleLength, Title, TitleTooLong);
    var e2 := Write(e1, v.description in descriptions, Description, MustBeUnique);
    var e3 := Write(e2, !isAddress(v.beneficiary), Beneficiary, InvalidAddress);
    var e4 := Write(e3, v.url != "" && !urlPattern(v.url), Url, InvalidUrl);
    var e5 := NonNegative(e4, v.ethReward, EthReward);
    var e6 := NonNegative(e5, v.externalTokenReward, ExternalTokenReward);
    var e7 := NonNegative(e6, v.nativeTokenReward, NativeTokenReward);
    var e8 := Require(e7, v.description, Description);
    var e9 := Require(e8, v.title, Title);
    var e10 := Require(e9, v.beneficiary, Beneficiary);
    Write(e10, NoRewardGiven(v), Rewards, NoReward)
  }

  const AllFields: set<Field> :=
    {Title, Description, Beneficiary, Url, EthReward, ExternalTokenReward, NativeTokenReward, ReputationReward, Rewards}

  /** The keys present in the error object. */
  function Keys(errors: Errors): set<Field>
  {
    set f | f in AllFields && Get(errors, f).Some?
  }

  /** The title is too long exactly when it exceeds 120 characters; an
      empty title is "Required" instead. */
  lemma TitleLimit(v: FormValues, descriptions: seq<string>, isAddress: string -> bool, urlPattern: string -> bool)
    ensures var title := Validate(v, descriptions, isAddress, urlPattern).title;
      && (title == Some(TitleTooLong) <==> |v.title| > MaxTitleLength)
      && (title.Some? <==> v.title == "" || |v.title| > MaxTitleLength)
  {
  }

  /** An empty recipient is "Required", never "Invalid address", whatever
      the address check says of the empty string. */
  lemma EmptyBeneficiaryIsRequired(v: FormValues, descriptions: seq<string>, isAddress: string -> bool,
                                   urlPattern: string -> bool)
    requires v.beneficiary == ""
    ensures Validate(v, descriptions, isAddress, urlPattern).beneficiary == Some(Required)
  {
  }

  /** A negative ETH, external-token or native-token reward is reported on
      its own key; a negative reputation reward is not checked at all. */
  lemma NegativeRewards(v: FormValues, descriptions: seq<string>, isAddress: string -> bool,
                        urlPattern: string -> bool)
    ensures var errors := Validate(v, descriptions, isAddress, urlPattern);
      && errors.ethReward == (if v.ethReward < 0.0 then Some(NegativeReward) else None)
      && errors.externalTokenReward == (if v.externalTokenReward < 0.0 then Some(NegativeReward) else None)
      && errors.nativeTokenReward == (if v.nativeTokenReward < 0.0 then Some(NegativeReward) else None)
      && errors.reputationReward == None
  {
  }

  /** "At least some reward" is reported exactly when all four are zero. */
  lemma RewardsRule(v: FormValues, descriptions: seq<string>, isAddress: string -> bool, urlPattern: string -> bool)
    ensures Validate(v, descriptions, isAddress, urlPattern).rewards.Some?
        <==> v.ethReward == 0.0 && v.reputationReward == 0.0 && v.externalTokenReward == 0.0 && v.nativeTokenReward == 0.0
  {
  }

  /** The URL is optional: an empty one is never an error, and a non-empty
      one is an error exactly when the pattern rejects it. */
  lemma UrlRule(v: FormValues, descriptions: seq<string>, isAddress: string -> bool, urlPattern: string -> bool)
    ensures var url := Validate(v, descriptions, isAddress, urlPattern).url;
      && (v.url == "" ==> url == None)
      && (v.url != "" ==> (url.Some? <==> !urlPattern(v.url)))
  {
  }

  /** With no descriptions to compare against (the form passes an empty
      list) uniqueness is never reported. */
  lemma UniquenessOffWithoutDescriptions(v: FormValues, isAddress: string -> bool, urlPattern: string -> bool)
    ensures Validate(v, [], isAddress, urlPattern).description != Some(MustBeUnique)
  {
  }

  /** Every check passes. */
  predicate Passes(v: FormValues, descriptions: seq<string>, isAddress: string -> bool, urlPattern: string -> bool)
  {
    && v.title != "" && |v.title| <= MaxTitleLength
    && v.description != "" && v.description !in descriptions
    && v.beneficiary != "" && isAddress(v.beneficiary)
    && (v.url == "" || urlPattern(v.url))
    && v.ethReward >= 0.0 && v.externalTokenReward >= 0.0 && v.nativeTokenReward >= 0.0
    && !NoRewardGiven(v)
  }

  /** Errors are only ever reported under the known keys, and there are
      none exactly when every check passes. */
  lemma ErrorKeys(v: FormValues, descriptions: seq<string>, isAddress: string -> bool, urlPattern: string -> bool)
    ensures Keys(Validate(v, descriptions, isAddress, urlPattern)) <= Reported
    ensures Keys(Validate(v, descriptions, isAddress, urlPattern)) == {} <==> Passes(v, descriptions, isAddress, urlPattern)
  {
    var errors := Validate(v, descriptions, isAddress, urlPattern);
    var a, u := isAddress(v.beneficiary), urlPattern(v.url);
    assert Get(errors, ReputationReward) == FieldError(v, descriptions, a, u, ReputationReward);
    if Keys(errors) == {} {
      assert Title !in Keys(errors) && Description !in Keys(errors) && Beneficiary !in Keys(errors);
      assert Url !in Keys(errors) && Rewards !in Keys(errors);
      assert EthReward !in Keys(errors) && ExternalTokenReward !in Keys(errors) && NativeTokenReward !in Keys(errors);
      assert FieldError(v, descriptions, a, u, Title) == None;
      assert FieldError(v, descriptions, a, u, Description) == None;
      assert FieldError(v, descriptions, a, u, Beneficiary) == None;
      assert FieldError(v, descriptions, a, u, Url) == None;
      assert FieldError(v, descriptions, a, u, EthReward) == None;
      assert FieldError(v, descriptions, a, u, ExternalTokenReward) == None;
      assert FieldError(v, descriptions, a, u, NativeTokenReward) == None;
      assert FieldError(v, descriptions, a, u, Rewards) == None;
    }
    if Passes(v, descriptions, isAddress, urlPattern) {
      forall f | f in AllFields
        ensures f !in Keys(errors)
      {
        assert Get(errors, f) == FieldError(v, descriptions, a, u, f);
      }
    }
  }
}
