// Volatility models as the strategy layer sees them, and the factory's
// GARCH(1,1) parameter check.  Estimation and forecasting numerics are not
// modelled: a model is known only through its forecast function.
module Models {
  import opened Wrappers

  /** A volatility model: forecast(horizon) either yields a volatility or throws (e.g. when uncalibrated). */
  datatype VolatilityModel = VolatilityModel(forecast: int -> Result<real>)

  /** ModelFactory::validateGARCHParameters. */
  predicate ValidateGARCHParameters(omega: real, alpha: real, beta: real)
  {
    if omega == 0.0 && alpha == 0.0 && beta == 0.0 then true
    else if omega < 0.0 then false
    else if alpha < 0.0 || alpha >= 1.0 then false
    else if beta < 0.0 || beta >= 1.0 then false
    else if alpha + beta >= 1.0 then false
    else true
  }

  /** The accepted parameters are exactly the all-zero triple and the stationary GARCH(1,1) region. */
  lemma ValidationMeaning(omega: real, alpha: real, beta: real)
    ensures ValidateGARCHParameters(omega, alpha, beta) <==>
      (omega == 0.0 && alpha == 0.0 && beta == 0.0)
      || (omega >= 0.0 && 0.0 <= alpha < 1.0 && 0.0 <= beta < 1.0 && alpha + beta < 1.0)
  {
  }

  /** Which GARCH constructor the factory calls. */
  datatype GarchChoice = DefaultGarch | CustomGarch(omega: real, alpha: real, beta: real)

  /** ModelFactory::createGARCHModel: throws on invalid parameters, all-zero selects the default model. */
  function CreateGARCHModel(omega: real, alpha: real, beta: real): (r: Result<GarchChoice>)
    ensures r.Err? <==> !ValidateGARCHParameters(omega, alpha, beta)
    ensures r.Err? ==> r.error == InvalidArgument
    ensures r.Ok? ==> (r.value == DefaultGarch <==> omega == 0.0 && alpha == 0.0 && beta == 0.0)
    ensures r.Ok? && r.value.CustomGarch? ==>
              r.value == CustomGarch(omega, alpha, beta) && 0.0 <= alpha + beta < 1.0 && omega >= 0.0
  {
    if !ValidateGARCHParameters(omega, alpha, beta) then Err(InvalidArgument)
    else if omega == 0.0 && alpha == 0.0 && beta == 0.0 then Ok(DefaultGarch)
    else Ok(CustomGarch(omega, alpha, beta))
  }
}
