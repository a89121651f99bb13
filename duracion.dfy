/**
 * How durations in minutes are written for people: "2h 30m", "2h", "45m".
 * The order form and the services page format them the same way.
 */
module Duracion {

  import opened Wrappers
  import opened Text

  /** `minutos >= 60 ? (mins > 0 ? "Hh Mm" : "Hh") : "Mm"`, with `H = floor(minutos / 60)`, `M = minutos % 60`. */
  function FormatDuracion(minutos: int): (r: string)
    ensures |r| >= 2 && (r[|r| - 1] == 'h' || r[|r| - 1] == 'm')
    ensures r[|r| - 1] == 'h' <==> minutos >= 60 && minutos % 60 == 0
  {
    if minutos >= 60 then
      var horas := minutos / 60;
      var mins := minutos % 60;
      if mins > 0 then NatToString(horas) + "h " + NatToString(mins) + "m"
      else NatToString(horas) + "h"
    else IntToString(minutos) + "m"
  }

  /** The first position of `c` in `s`. */
  function IndexOf(s: string, c: char): Option<nat>
  {
    if s == [] then None
    else if s[0] == c then Some(0)
    else
      match IndexOf(s[1..], c)
      case None => None
      case Some(k) => Some(k + 1)
  }

  /** Reads "<H>h <M>" (the text before the final 'm') into hours and minutes. */
  function LeerHorasYMinutos(body: string): Option<(nat, nat)>
  {
    match IndexOf(body, 'h')
    case None => None
    case Some(k) =>
      if k + 1 < |body| && body[k + 1] == ' ' && AllDigits(body[..k]) && AllDigits(body[k + 2..])
      then Some((ParseDigits(body[..k]), ParseDigits(body[k + 2..])))
      else None
  }

  /** Reads a duration written by `FormatDuracion` back into minutes. */
  function LeerDuracion(s: string): Option<int>
  {
    if |s| < 2 then None
    else
      var body := s[..|s| - 1];
      if s[|s| - 1] == 'h' && AllDigits(body) then Some(60 * ParseDigits(body))
      else if s[|s| - 1] != 'm' then None
      else if AllDigits(body) then Some(ParseDigits(body))
      else
        match LeerHorasYMinutos(body)
        case None => None
        case Some((h, m)) => Some(60 * h + m)
  }

  lemma {:induction false} IndexAfterDigits(a: string, rest: string)
    requires AllDigits(a)
    ensures IndexOf(a + ['h'] + rest, 'h') == Some(|a|)
    decreases |a|
  {
    var s := a + ['h'] + rest;
    if a != [] {
      assert s[0] == a[0] != 'h';
      assert s[1..] == a[1..] + ['h'] + rest;
      IndexAfterDigits(a[1..], rest);
    }
  }

  lemma {:induction false} LeerCuerpo(body: string, k: nat)
    requires IndexOf(body, 'h') == Some(k) && k + 1 < |body| && body[k + 1] == ' '
    requires AllDigits(body[..k]) && AllDigits(body[k + 2..])
    ensures LeerHorasYMinutos(body) == Some((ParseDigits(body[..k]), ParseDigits(body[k + 2..])))
  {
  }

  /** Where the parts of "<a>h <b>" sit. */
  lemma {:induction false} CuerpoHorasMinutos(a: string, b: string)
    requires a != [] && AllDigits(a) && AllDigits(b)
    ensures var body := a + "h " + b;
            IndexOf(body, 'h') == Some(|a|) && |a| + 1 < |body| && body[|a| + 1] == ' '
            && body[..|a|] == a && body[|a| + 2..] == b && !AllDigits(body)
  {
    var body := a + "h " + b;
    assert body == a + ['h'] + ([' '] + b);
    IndexAfterDigits(a, [' '] + b);
    assert body[..|a|] == a;
    assert body[|a| + 2..] == b;
    assert !IsDigit(body[|a|]);
  }

  lemma {:induction false} LeerCuerpoHorasMinutos(a: string, b: string)
    requires a != [] && AllDigits(a) && AllDigits(b)
    ensures LeerHorasYMinutos(a + "h " + b) == Some((ParseDigits(a), ParseDigits(b)))
  {
    CuerpoHorasMinutos(a, b);
    LeerCuerpo(a + "h " + b, |a|);
  }

  /** A text ending in 'm' whose body is not all digits is read as hours and minutes. */
  lemma {:induction false} LeerCompuesta(s: string, h: nat, m: nat)
    requires |s| >= 2 && s[|s| - 1] == 'm' && !AllDigits(s[..|s| - 1])
    requires LeerHorasYMinutos(s[..|s| - 1]) == Some((h, m))
    ensures LeerDuracion(s) == Some(60 * h + m)
  {
  }

  /** Reading "<a>h <b>m" for two digit strings. */
  lemma {:induction false} LeerHorasMinutos(s: string, a: string, b: string)
    requires a != [] && AllDigits(a) && AllDigits(b)
    requires s == a + "h " + b + "m"
    ensures LeerDuracion(s) == Some(60 * ParseDigits(a) + ParseDigits(b))
  {
    var body := a + "h " + b;
    assert s[..|s| - 1] == body;
    assert !IsDigit(body[|a|]);
    LeerCuerpoHorasMinutos(a, b);
    LeerCompuesta(s, ParseDigits(a), ParseDigits(b));
  }

  /** The written form under an hour: the minutes and "m" (a negative value keeps its sign). */
  lemma FormaMinutos(m: int)
    requires m < 60
    ensures m >= 0 ==> FormatDuracion(m) == NatToString(m) + "m"
    ensures m < 0 ==> FormatDuracion(m) == "-" + NatToString(-m) + "m"
  {
  }

  lemma {:induction false} RoundTripMinutos(m: nat)
    requires m < 60
    ensures LeerDuracion(FormatDuracion(m)) == Some(m)
  {
    var s := FormatDuracion(m);
    FormaMinutos(m);
    assert s[..|s| - 1] == NatToString(m);
    NatToStringRoundTrip(m);
  }

  /** Reading "<a>h" for a digit string. */
  lemma {:induction false} LeerHoras(s: string, a: string)
    requires a != [] && AllDigits(a)
    requires s == a + "h"
    ensures LeerDuracion(s) == Some(60 * ParseDigits(a))
  {
    assert s[..|s| - 1] == a;
  }

  /** The written form of a whole number of hours. */
  lemma {:induction false} FormaHoras(m: nat)
    requires m >= 60 && m % 60 == 0
    ensures FormatDuracion(m) == NatToString(m / 60) + "h"
  {
  }

  /** "<h>h" reads back as `h` hours. */
  lemma {:induction false} LeerHorasDe(h: nat)
    ensures LeerDuracion(NatToString(h) + "h") == Some(60 * h)
  {
    LeerHoras(NatToString(h) + "h", NatToString(h));
    NatToStringRoundTrip(h);
  }

  lemma {:induction false} RoundTripHoras(m: nat)
    requires m >= 60 && m % 60 == 0
    ensures LeerDuracion(FormatDuracion(m)) == Some(m)
  {
    var h := m / 60;
    FormaHoras(m);
    LeerHorasDe(h);
    assert m == 60 * h;
  }

  /** The written form of a duration with both hours and minutes. */
  lemma {:induction false} FormaHorasMinutos(m: nat)
    requires m >= 60 && m % 60 > 0
    ensures FormatDuracion(m) == NatToString(m / 60) + "h " + NatToString(m % 60) + "m"
  {
  }

  /** "<h>h <mins>m" reads back as `h` hours and `mins` minutes. */
  lemma {:induction false} LeerHorasMinutosDe(h: nat, mins: nat)
    ensures LeerDuracion(NatToString(h) + "h " + NatToString(mins) + "m") == Some(60 * h + mins)
  {
    var a, b := NatToString(h), NatToString(mins);
    LeerHorasMinutos(a + "h " + b + "m", a, b);
    NatToStringRoundTrip(h);
    NatToStringRoundTrip(mins);
  }

  lemma {:induction false} RoundTripHorasMinutos(m: nat)
    requires m >= 60 && m % 60 > 0
    ensures LeerDuracion(FormatDuracion(m)) == Some(m)
  {
    var h, mins := m / 60, m % 60;
    FormaHorasMinutos(m);
    LeerHorasMinutosDe(h, mins);
    assert m == 60 * h + mins;
  }

  /** Every non-negative duration reads back from its written form. */
  lemma {:induction false} FormatDuracionRoundTrip(m: nat)
    ensures LeerDuracion(FormatDuracion(m)) == Some(m)
  {
    if m < 60 {
      RoundTripMinutos(m);
    } else if m % 60 == 0 {
      RoundTripHoras(m);
    } else {
      RoundTripHorasMinutos(m);
    }
  }
}
