/**
 * Construction-time checks of the F-beta metric's configuration: the
 * averaging method, the multi-dimensional averaging method, the number of
 * classes and the ignored class. An invalid combination is rejected before
 * any data is seen, with a message naming the offending parameter.
 */
module FBetaParams {
  import opened Wrappers

  /** How per-class scores are combined; `NoAverage` keeps one score per class. */
  datatype Average = Micro | Macro | Weighted | Samples | NoAverage

  /** How inputs with an extra axis are reduced. */
  datatype MdmcAverage = Global | Samplewise

  datatype ParamError = UnknownAverage | UnknownMdmc | MissingClasses | BadIgnoreIndex

  /** A configuration that passed validation. */
  datatype Config = Config(average: Average, mdmc: Option<MdmcAverage>, numClasses: Option<int>, ignoreIndex: Option<int>)

  /** The accepted spellings of `average`; both "none" and an absent value mean no averaging. */
  function ParseAverage(average: Option<string>): (r: Option<Average>)
    ensures r == Some(NoAverage) <==> average == None || average == Some("none")
  {
    match average
    case None => Some(NoAverage)
    case Some(s) =>
      if s == "micro" then Some(Micro)
      else if s == "macro" then Some(Macro)
      else if s == "weighted" then Some(Weighted)
      else if s == "samples" then Some(Samples)
      else if s == "none" then Some(NoAverage)
      else None
  }

  /** The accepted spellings of `mdmc_average`; absent means the inputs have no extra axis. */
  function ParseMdmc(mdmc: Option<string>): Result<Option<MdmcAverage>, ParamError>
  {
    match mdmc
    case None => Success(None)
    case Some(s) =>
      if s == "global" then Success(Some(Global))
      else if s == "samplewise" then Success(Some(Samplewise))
      else Failure(UnknownMdmc)
  }

  /** The averages that score class by class and so need to know how many classes there are. */
  predicate PerClassAverage(average: Average)
  {
    average == Macro || average == Weighted || average == NoAverage
  }

  /** `num_classes` is given and not zero (a truthy value). */
  predicate ClassesGiven(numClasses: Option<int>)
  {
    numClasses.Some? && numClasses.value != 0
  }

  /** The ignored class cannot be used with this number of classes. */
  predicate IgnoreInvalid(numClasses: Option<int>, ignoreIndex: Option<int>)
  {
    ClassesGiven(numClasses) && ignoreIndex.Some?
    && (!(0 <= ignoreIndex.value < numClasses.value) || numClasses.value == 1)
  }

  /** What every accepted configuration satisfies. */
  predicate Valid(cfg: Config)
  {
    (PerClassAverage(cfg.average) ==> cfg.numClasses.Some? && cfg.numClasses.value >= 1)
    && !IgnoreInvalid(cfg.numClasses, cfg.ignoreIndex)
  }

  /**
   * Validation in the order the checks are made: the averaging method, then
   * the multi-dimensional method, then the number of classes a per-class
   * average needs, then the ignored class. The first failing check decides
   * the error.
   */
  function Validate(average: Option<string>, mdmc: Option<string>, numClasses: Option<int>, ignoreIndex: Option<int>)
    : (r: Result<Config, ParamError>)
    ensures r == Failure(UnknownAverage) <==> ParseAverage(average).None?
    ensures r == Failure(UnknownMdmc) <==> ParseAverage(average).Some? && ParseMdmc(mdmc).Failure?
    ensures r == Failure(MissingClasses) <==>
              ParseAverage(average).Some? && ParseMdmc(mdmc).Success?
              && PerClassAverage(ParseAverage(average).value)
              && !(numClasses.Some? && numClasses.value >= 1)
    ensures r.Success? ==>
              Valid(r.value) && Some(r.value.average) == ParseAverage(average)
              && Success(r.value.mdmc) == ParseMdmc(mdmc)
              && r.value.numClasses == numClasses && r.value.ignoreIndex == ignoreIndex
  {
    match ParseAverage(average)
    case None => Failure(UnknownAverage)
    case Some(avg) =>
      match ParseMdmc(mdmc)
      case Failure(e) => Failure(e)
      case Success(md) =>
        if PerClassAverage(avg) && !(numClasses.Some? && numClasses.value >= 1) then Failure(MissingClasses)
        else if IgnoreInvalid(numClasses, ignoreIndex) then Failure(BadIgnoreIndex)
        else Success(Config(avg, md, numClasses, ignoreIndex))
  }

  /** The ignored-class check is the last one: it fails only once everything else has passed. */
  lemma ValidateIgnoreIndex(average: Option<string>, mdmc: Option<string>, numClasses: Option<int>, ignoreIndex: Option<int>)
    ensures Validate(average, mdmc, numClasses, ignoreIndex) == Failure(BadIgnoreIndex) <==>
              ParseAverage(average).Some? && ParseMdmc(mdmc).Success?
              && !(PerClassAverage(ParseAverage(average).value) && !(numClasses.Some? && numClasses.value >= 1))
              && IgnoreInvalid(numClasses, ignoreIndex)
  {
  }

  function AverageName(average: Average): string
  {
    match average
    case Micro => "micro"
    case Macro => "macro"
    case Weighted => "weighted"
    case Samples => "samples"
    case NoAverage => "none"
  }

  function MdmcName(mdmc: Option<MdmcAverage>): Option<string>
  {
    match mdmc
    case None => None
    case Some(Global) => Some("global")
    case Some(Samplewise) => Some("samplewise")
  }

  /** Every configuration satisfying `Valid` is accepted as written, and only those are. */
  lemma ValidateAccepts(cfg: Config)
    ensures Validate(Some(AverageName(cfg.average)), MdmcName(cfg.mdmc), cfg.numClasses, cfg.ignoreIndex) == Success(cfg)
            <==> Valid(cfg)
  {
    var avg := Some(AverageName(cfg.average));
    assert ParseAverage(avg) == Some(cfg.average);
    assert ParseMdmc(MdmcName(cfg.mdmc)) == Success(cfg.mdmc);
  }

  /**
   * The message of each error. Each literal is split around the phrase that the
   * lemmas below show it mentions, so that `MentionsBetween` can locate the phrase.
   */
  function Message(e: ParamError): string
  {
    match e
    case UnknownAverage => "The " + "`average`" + " has to be one of micro, macro, weighted, samples, none or None."
    case UnknownMdmc => "The " + "`mdmc" + "_average` has to be one of None, samplewise or global."
    case MissingClasses => "When you set `average` to macro, weighted or none, you have to provide the " + "number of classes" + "."
    case BadIgnoreIndex => "The `" + "ignore_index" + "` is not valid for the given classes."
  }

  /** `word` occurs in `msg` from position `i` on. */
  predicate OccursAt(msg: string, word: string, i: int)
  {
    0 <= i && i + |word| <= |msg| && msg[i..i + |word|] == word
  }

  /** `word` occurs in `msg`. */
  predicate Mentions(msg: string, word: string)
  {
    exists i :: 0 <= i <= |msg| && OccursAt(msg, word, i)
  }

  /** A word placed between two texts occurs in the result. */
  lemma MentionsBetween(before: string, word: string, after: string)
    ensures Mentions(before + word + after, word)
  {
    var msg := before + word + after;
    var i := |before|;
    forall k | 0 <= k < |word|
      ensures msg[i..i + |word|][k] == word[k]
    {
      assert msg[i + k] == word[k];
    }
    assert OccursAt(msg, word, i);
  }

  /** Validation of the parameters fails, and its message mentions `word`. */
  predicate Rejects(average: Option<string>, mdmc: Option<string>, numClasses: Option<int>, ignoreIndex: Option<int>, word: string)
  {
    var r := Validate(average, mdmc, numClasses, ignoreIndex);
    r.Failure? && Mentions(Message(r.error), word)
  }

  /** An unknown averaging method is named as such. */
  lemma WrongAverage()
    ensures Validate(Some("wrong"), None, None, None) == Failure(UnknownAverage)
    ensures Rejects(Some("wrong"), None, None, None, "`average`")
  {
    MentionsBetween("The ", "`average`", " has to be one of micro, macro, weighted, samples, none or None.");
  }

  /** An unknown multi-dimensional method is named as such, even with a valid average. */
  lemma WrongMdmc()
    ensures Validate(Some("micro"), Some("wrong"), None, None) == Failure(UnknownMdmc)
    ensures Rejects(Some("micro"), Some("wrong"), None, None, "`mdmc")
  {
    MentionsBetween("The ", "`mdmc", "_average` has to be one of None, samplewise or global.");
  }

  /** Macro averaging without a number of classes asks for one. */
  lemma MacroWithoutClasses()
    ensures Validate(Some("macro"), None, None, None) == Failure(MissingClasses)
    ensures Rejects(Some("macro"), None, None, None, "number of classes")
  {
    MentionsBetween("When you set `average` to macro, weighted or none, you have to provide the ", "number of classes", ".");
  }

  /** With a single class no class can be ignored. */
  lemma IgnoreWithOneClass()
    ensures Validate(Some("macro"), None, Some(1), Some(0)) == Failure(BadIgnoreIndex)
    ensures Rejects(Some("macro"), None, Some(1), Some(0), "ignore_index")
  {
    MentionsBetween("The `", "ignore_index", "` is not valid for the given classes.");
  }
}
