/**
 * The `TrendPill` badge of frontend/src/components/TickerCard.jsx: a
 * case-insensitive mapping from the trend label to a style and an icon, and
 * the text shown inside the pill. An absent label (null or undefined) is `None`.
 */
module TrendPill {
  import opened Wrappers
  import opened Text
  import Predictor

  /** The success, danger and muted CSS class sets of the pill. */
  datatype Style = SuccessStyle | DangerStyle | MutedStyle

  datatype Icon = TrendingUp | TrendingDown | Minus

  /** `getTrendStyle`: the switch on `trend?.toLowerCase()`. */
  function TrendStyle(trend: Option<string>): (s: Style)
    ensures s == SuccessStyle <==> trend.Some? && Lower(trend.value) == "up"
    ensures s == DangerStyle <==> trend.Some? && Lower(trend.value) == "down"
  {
    match trend
    case None => MutedStyle
    case Some(t) =>
      var lower := Lower(t);
      if lower == "up" then SuccessStyle
      else if lower == "down" then DangerStyle
      else MutedStyle
  }

  /** `getTrendIcon`: the same switch, choosing the icon. */
  function TrendIcon(trend: Option<string>): (i: Icon)
    ensures i == TrendingUp <==> trend.Some? && Lower(trend.value) == "up"
    ensures i == TrendingDown <==> trend.Some? && Lower(trend.value) == "down"
  {
    match trend
    case None => Minus
    case Some(t) =>
      var lower := Lower(t);
      if lower == "up" then TrendingUp
      else if lower == "down" then TrendingDown
      else Minus
  }

  /** `{trend || 'Neutral'}`: the label itself, unchanged, unless it is absent or empty. */
  function PillLabel(trend: Option<string>): (shown: string)
    ensures trend.Some? && trend.value != "" ==> shown == trend.value
    ensures trend.None? || trend.value == "" ==> shown == "Neutral"
  {
    match trend
    case Some(t) => if t != "" then t else "Neutral"
    case None => "Neutral"
  }

  /** Style and icon always agree. */
  lemma StyleMatchesIcon(trend: Option<string>)
    ensures TrendStyle(trend) == SuccessStyle <==> TrendIcon(trend) == TrendingUp
    ensures TrendStyle(trend) == DangerStyle <==> TrendIcon(trend) == TrendingDown
    ensures TrendStyle(trend) == MutedStyle <==> TrendIcon(trend) == Minus
  {
  }

  /** Labels that differ only in the case of ASCII letters look the same. */
  lemma CaseInsensitive(a: string, b: string)
    requires Lower(a) == Lower(b)
    ensures TrendStyle(Some(a)) == TrendStyle(Some(b))
    ensures TrendIcon(Some(a)) == TrendIcon(Some(b))
  {
  }

  /** "UP", "Up" and "up" all get the upward style and icon. */
  lemma UpInAnyCase()
    ensures TrendStyle(Some("UP")) == TrendStyle(Some("Up")) == TrendStyle(Some("up")) == SuccessStyle
    ensures TrendIcon(Some("UP")) == TrendIcon(Some("Up")) == TrendIcon(Some("up")) == TrendingUp
  {
  }

  /** The three labels the back end sends get three distinct styles, and each is shown as sent. */
  lemma BackendLabels(t: Predictor.Trend)
    ensures TrendStyle(Some(t.Name())) == match t
      case Up => SuccessStyle
      case Down => DangerStyle
      case Neutral => MutedStyle
    ensures PillLabel(Some(t.Name())) == t.Name()
  {
  }
}
