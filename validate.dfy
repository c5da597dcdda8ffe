/** The check of a written simulation configuration before a run: the
    numeric settings, the destination-choice files and the data source, in
    this order; the first failing check ends the validation with its error.

    Whether a file exists and whether the data source is consistent with the
    mode-to-type mapping are decided outside this code: the first is a
    parameter, the second a field of the configuration. */
module Validation {
  import opened Wrappers

  datatype WrittenConfiguration = WrittenConfiguration(
    threadCount: int,
    timeStepLength: int,
    numberOfZones: int,
    fractionOfPopulation: real,
    destinationChoice: map<string, string>,
    dataSourceValid: bool)

  datatype ValidationError =
    | ThreadCountTooLow(threadCount: int)
    | TimeStepLengthChanged(timeStepLength: int)
    | NoZonesToProcess(numberOfZones: int)
    | FractionTooLow(fraction: real)
    | FractionTooHigh(fraction: real)
    | DestinationChoiceFileMissing(path: string)
    | DataSourceInvalid

  function ValidateThreadCount(c: WrittenConfiguration): (r: Outcome<ValidationError>)
    ensures r.Pass? <==> c.threadCount >= 1
  {
    if 1 > c.threadCount then Fail(ThreadCountTooLow(c.threadCount)) else Pass
  }

  function ValidateTimeStepLength(c: WrittenConfiguration, defaultTimeStepLength: int): (r: Outcome<ValidationError>)
    ensures r.Pass? <==> c.timeStepLength == defaultTimeStepLength
  {
    if defaultTimeStepLength != c.timeStepLength then Fail(TimeStepLengthChanged(c.timeStepLength)) else Pass
  }

  function ValidateNumberOfZones(c: WrittenConfiguration): (r: Outcome<ValidationError>)
    ensures r.Pass? <==> c.numberOfZones >= 1
  {
    if 1 > c.numberOfZones then Fail(NoZonesToProcess(c.numberOfZones)) else Pass
  }

  /** A fraction of the population in [0, 1]; both ends are accepted. */
  function ValidateFractionOfPopulation(c: WrittenConfiguration): (r: Outcome<ValidationError>)
    ensures r.Pass? <==> 0.0 <= c.fractionOfPopulation <= 1.0
    ensures c.fractionOfPopulation < 0.0 ==> r == Fail(FractionTooLow(c.fractionOfPopulation))
    ensures c.fractionOfPopulation > 1.0 ==> r == Fail(FractionTooHigh(c.fractionOfPopulation))
  {
    if 0.0 > c.fractionOfPopulation then Fail(FractionTooLow(c.fractionOfPopulation))
    else if 1.0 < c.fractionOfPopulation then Fail(FractionTooHigh(c.fractionOfPopulation))
    else Pass
  }

  /** The first failing one of the numeric checks, in the order they run. */
  function NumericChecks(c: WrittenConfiguration, defaultTimeStepLength: int): (r: Outcome<ValidationError>)
    ensures r.Pass? <==> c.threadCount >= 1 && c.timeStepLength == defaultTimeStepLength &&
                         c.numberOfZones >= 1 && 0.0 <= c.fractionOfPopulation <= 1.0
  {
    if ValidateThreadCount(c).Fail? then ValidateThreadCount(c)
    else if ValidateTimeStepLength(c, defaultTimeStepLength).Fail? then ValidateTimeStepLength(c, defaultTimeStepLength)
    else if ValidateNumberOfZones(c).Fail? then ValidateNumberOfZones(c)
    else ValidateFractionOfPopulation(c)
  }

  /** Every check that runs before a failing one has passed: a configuration
      with a bad thread count reports that, whatever else is wrong, and so on
      down the order. */
  lemma NumericChecksReportFirstFailure(c: WrittenConfiguration, defaultTimeStepLength: int)
    ensures c.threadCount < 1 ==> NumericChecks(c, defaultTimeStepLength) == Fail(ThreadCountTooLow(c.threadCount))
    ensures c.threadCount >= 1 && c.timeStepLength != defaultTimeStepLength ==>
      NumericChecks(c, defaultTimeStepLength) == Fail(TimeStepLengthChanged(c.timeStepLength))
    ensures c.threadCount >= 1 && c.timeStepLength == defaultTimeStepLength && c.numberOfZones < 1 ==>
      NumericChecks(c, defaultTimeStepLength) == Fail(NoZonesToProcess(c.numberOfZones))
    ensures c.threadCount >= 1 && c.timeStepLength == defaultTimeStepLength && c.numberOfZones >= 1 ==>
      NumericChecks(c, defaultTimeStepLength) == ValidateFractionOfPopulation(c)
  {
  }

  class Validate {
    const defaultTimeStepLength: int
    var configuration: Option<WrittenConfiguration>

    constructor (defaultTimeStepLength: int)
      ensures this.defaultTimeStepLength == defaultTimeStepLength && configuration == None
    {
      this.defaultTimeStepLength := defaultTimeStepLength;
      configuration := None;
    }

    /** Keeps the configuration, then runs the checks in order. It passes
        exactly when every check passes; a failure carries the error of the
        first check that failed. */
    method Now(c: WrittenConfiguration, fileExists: string -> bool) returns (r: Outcome<ValidationError>)
      modifies this
      ensures configuration == Some(c)
      ensures r.Pass? <==>
        NumericChecks(c, defaultTimeStepLength).Pass? &&
        (forall p :: p in c.destinationChoice.Values ==> fileExists(p)) &&
        c.dataSourceValid
      ensures NumericChecks(c, defaultTimeStepLength).Fail? ==> r == NumericChecks(c, defaultTimeStepLength)
      ensures NumericChecks(c, defaultTimeStepLength).Pass? && r.Fail? && r.error.DestinationChoiceFileMissing? ==>
        r.error.path in c.destinationChoice.Values && !fileExists(r.error.path)
      ensures NumericChecks(c, defaultTimeStepLength).Pass? && r.Fail? && !r.error.DestinationChoiceFileMissing? ==>
        r.error == DataSourceInvalid && forall p :: p in c.destinationChoice.Values ==> fileExists(p)
    {
      configuration := Some(c);
      r := NumericChecks(c, defaultTimeStepLength);
      if r.Fail? {
        return;
      }
      r := ValidateDestinationChoiceFiles(c, fileExists);
      if r.Fail? {
        return;
      }
      r := if c.dataSourceValid then Pass else Fail(DataSourceInvalid);
    }
  }

  /** Fails with one missing path when some destination-choice path does not
      exist; which one is reported depends on the map's iteration order. */
  method ValidateDestinationChoiceFiles(c: WrittenConfiguration, fileExists: string -> bool) returns (r: Outcome<ValidationError>)
    ensures r.Pass? <==> forall p :: p in c.destinationChoice.Values ==> fileExists(p)
    ensures r.Fail? ==>
      r.error.DestinationChoiceFileMissing? && r.error.path in c.destinationChoice.Values && !fileExists(r.error.path)
  {
    var remaining := c.destinationChoice.Values;
    while remaining != {}
      invariant remaining <= c.destinationChoice.Values
      invariant forall p :: p in c.destinationChoice.Values - remaining ==> fileExists(p)
      decreases remaining
    {
      var path :| path in remaining;
      if !fileExists(path) {
        return Fail(DestinationChoiceFileMissing(path));
      }
      remaining := remaining - {path};
    }
    return Pass;
  }
}
