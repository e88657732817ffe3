/** The flux range of the spectrum plots
    (dash_spectra/templatetags/dash_spectra_tags.py): `calculate_flux_extrema`
    reads one spectrum's fluxes and widens a running maximum and minimum to
    cover them; `dash_spectra` threads that range through all of a target's
    spectra, starting from 0 and 0. A spectrum's stored value has one of three
    shapes: a `photon_flux` column, a `flux` column, or one dictionary per
    sample. */
module FluxExtrema {
  import opened Wrappers
  import opened PyText

  /** A scalar of the stored JSON: a number or a string. */
  datatype Scalar = Num(x: real) | Text(s: string)

  /** A value in a spectrum's datum: a column of numbers, or one sample as a
      dictionary. */
  datatype Field = Column(values: seq<real>) | Sample(fields: map<string, Scalar>)

  /** A spectrum's datum: its entries in the dictionary's order. A decoded JSON
      object has distinct keys; the model does not require it, and a lookup
      sees the first entry with the key. */
  type Datum = seq<(string, Field)>

  /** The exceptions the flux computation raises. */
  datatype FluxError =
    | EmptyFlux               // `max()` of an empty list
    | NotAColumn              // `max()` over a dictionary's keys
    | NotASample(key: string) // `value['wavelength']` on a column
    | MissingKey(key: string) // a sample without `wavelength` or `flux`
    | BadFlux(key: string)    // `float()` of text that is not a number

  /** The range shown above the plots. */
  datatype DashContext =
    | NoSpectra
    | Range(targetId: int, redshift: real, minFlux: real, maxFlux: real)

  /** `datum.get(key)`. */
  function Get(datum: Datum, key: string): Option<Field> {
    if datum == [] then None
    else if datum[0].0 == key then Some(datum[0].1)
    else Get(datum[1..], key)
  }

  /** Python truthiness of a looked-up value: present and not empty. */
  predicate Truthy(f: Option<Field>) {
    match f
    case None => false
    case Some(Column(vs)) => |vs| > 0
    case Some(Sample(m)) => |m| > 0
  }

  /** `float(value['flux'])` of one sample, after `value['wavelength']`. */
  function SampleFlux(key: string, f: Field): Result<real, FluxError> {
    match f
    case Column(_) => Err(NotASample(key))
    case Sample(m) =>
      if "wavelength" !in m || "flux" !in m then Err(MissingKey(key))
      else
        match m["flux"]
        case Num(x) => Ok(x)
        case Text(s) => if ParseFloat(s).Some? then Ok(ParseFloat(s).value) else Err(BadFlux(key))
  }

  /** The per-sample loop: every sample's flux, in order, or the first
      exception. */
  function SampleFluxes(datum: Datum): Result<seq<real>, FluxError> {
    if datum == [] then Ok([])
    else
      var init :- SampleFluxes(datum[..|datum| - 1]);
      var last := datum[|datum| - 1];
      var x :- SampleFlux(last.0, last.1);
      Ok(init + [x])
  }

  /** The fluxes of one spectrum: a truthy `photon_flux` column first, then a
      truthy `flux` column, then the samples. */
  function Fluxes(datum: Datum): Result<seq<real>, FluxError> {
    var photon := Get(datum, "photon_flux");
    var flux := Get(datum, "flux");
    if Truthy(photon) then (if photon.value.Column? then Ok(photon.value.values) else Err(NotAColumn))
    else if Truthy(flux) then (if flux.value.Column? then Ok(flux.value.values) else Err(NotAColumn))
    else SampleFluxes(datum)
  }

  function Max(s: seq<real>): real
    requires |s| > 0
  {
    if |s| == 1 then s[0]
    else
      var m := Max(s[..|s| - 1]);
      if s[|s| - 1] > m then s[|s| - 1] else m
  }

  function Min(s: seq<real>): real
    requires |s| > 0
  {
    if |s| == 1 then s[0]
    else
      var m := Min(s[..|s| - 1]);
      if s[|s| - 1] < m then s[|s| - 1] else m
  }

  /** What `calculate_flux_extrema(spectrum, max_flux, min_flux)` returns or
      raises. */
  function ExtremaSpec(datum: Datum, maxFlux: real, minFlux: real): Result<(real, real), FluxError> {
    var flux :- Fluxes(datum);
    if |flux| == 0 then Err(EmptyFlux)
    else
      var mx := if Max(flux) > maxFlux then Max(flux) else maxFlux;
      var mn := if Min(flux) < minFlux then Min(flux) else minFlux;
      Ok((mx, mn))
  }

  /** The per-sample loop of `calculate_flux_extrema`. */
  method CollectSampleFluxes(datum: Datum) returns (r: Result<seq<real>, FluxError>)
    ensures r == SampleFluxes(datum)
  {
    var flux: seq<real> := [];
    for i := 0 to |datum|
      invariant SampleFluxes(datum[..i]) == Ok(flux)
    {
      assert datum[..i + 1][..i] == datum[..i];
      var (key, value) := datum[i];
      var x := SampleFlux(key, value);
      if x.Err? {
        SampleFailureStays(datum, i + 1);
        return Err(x.error);
      }
      flux := flux + [x.value];
    }
    assert datum[..|datum|] == datum;
    r := Ok(flux);
  }

  lemma {:induction false} SampleFailureStays(datum: Datum, i: nat)
    requires i <= |datum| && SampleFluxes(datum[..i]).Err?
    ensures SampleFluxes(datum) == SampleFluxes(datum[..i])
    decreases |datum| - i
  {
    if i < |datum| {
      assert datum[..i + 1][..i] == datum[..i];
      SampleFailureStays(datum, i + 1);
    } else {
      assert datum[..i] == datum;
    }
  }

  /** `calculate_flux_extrema(spectrum, max_flux, min_flux)`. */
  method CalculateFluxExtrema(datum: Datum, maxFlux: real, minFlux: real) returns (r: Result<(real, real), FluxError>)
    ensures r == ExtremaSpec(datum, maxFlux, minFlux)
  {
    var flux: seq<real>;
    var photon := Get(datum, "photon_flux");
    var fluxColumn := Get(datum, "flux");
    if Truthy(photon) {
      if !photon.value.Column? {
        return Err(NotAColumn);
      }
      flux := photon.value.values;
    } else if Truthy(fluxColumn) {
      if !fluxColumn.value.Column? {
        return Err(NotAColumn);
      }
      flux := fluxColumn.value.values;
    } else {
      var samples := CollectSampleFluxes(datum);
      if samples.Err? {
        return Err(samples.error);
      }
      flux := samples.value;
    }
    if |flux| == 0 {
      return Err(EmptyFlux);
    }
    var mx, mn := maxFlux, minFlux;
    if Max(flux) > mx {
      mx := Max(flux);
    }
    if Min(flux) < mn {
      mn := Min(flux);
    }
    r := Ok((mx, mn));
  }

  /** The range after threading the extrema through `spectra` from
      `(maxFlux, minFlux)`. */
  function FoldSpec(spectra: seq<Datum>, maxFlux: real, minFlux: real): Result<(real, real), FluxError>
    decreases |spectra|
  {
    if spectra == [] then Ok((maxFlux, minFlux))
    else
      var (mx, mn) :- ExtremaSpec(spectra[0], maxFlux, minFlux);
      FoldSpec(spectra[1..], mx, mn)
  }

  /** What the combined (not individual) `dash_spectra` tag yields. */
  function DashSpectraSpec(targetId: int, redshift: real, spectra: seq<Datum>): Result<DashContext, FluxError> {
    if spectra == [] then Ok(NoSpectra)
    else
      var (mx, mn) :- FoldSpec(spectra, 0.0, 0.0);
      Ok(Range(targetId, redshift, mn, mx))
  }

  /** The combined branch of `dash_spectra(context, target)`: the spectra
      are the target's, in timestamp order. */
  method DashSpectra(targetId: int, redshift: real, spectra: seq<Datum>) returns (r: Result<DashContext, FluxError>)
    ensures r == DashSpectraSpec(targetId, redshift, spectra)
  {
    if |spectra| == 0 {
      return Ok(NoSpectra);
    }
    var maxFlux, minFlux := 0.0, 0.0;
    for i := 0 to |spectra|
      invariant FoldSpec(spectra[i..], maxFlux, minFlux) == FoldSpec(spectra, 0.0, 0.0)
    {
      assert spectra[i..][0] == spectra[i] && spectra[i..][1..] == spectra[i + 1..];
      var ext := CalculateFluxExtrema(spectra[i], maxFlux, minFlux);
      if ext.Err? {
        return Err(ext.error);
      }
      maxFlux, minFlux := ext.value.0, ext.value.1;
    }
    r := Ok(Range(targetId, redshift, minFlux, maxFlux));
  }

  // ---------------------------------------------------------------------------
  // Properties

  /** `Max` is an element and bounds every element; likewise `Min`. */
  lemma {:induction false} MaxMinBounds(s: seq<real>)
    requires |s| > 0
    ensures Max(s) in s && forall x :: x in s ==> x <= Max(s)
    ensures Min(s) in s && forall x :: x in s ==> Min(s) <= x
  {
    if |s| > 1 {
      var init := s[..|s| - 1];
      MaxMinBounds(init);
      assert s == init + [s[|s| - 1]];
    }
  }

  /** The maximum of a concatenation is the larger of the two maxima. */
  lemma {:induction false} MaxMinAppend(s: seq<real>, t: seq<real>)
    requires |s| > 0 && |t| > 0
    ensures Max(s + t) == (if Max(t) > Max(s) then Max(t) else Max(s))
    ensures Min(s + t) == (if Min(t) < Min(s) then Min(t) else Min(s))
    decreases |t|
  {
    if |t| > 1 {
      var init := t[..|t| - 1];
      MaxMinAppend(s, init);
      assert (s + t)[..|s + t| - 1] == s + init;
    } else {
      assert (s + t)[..|s + t| - 1] == s;
    }
  }

  /** One spectrum widens the range to the extrema of the incoming values
      and its fluxes. */
  lemma ExtremaAreExtrema(datum: Datum, maxFlux: real, minFlux: real)
    requires ExtremaSpec(datum, maxFlux, minFlux).Ok?
    ensures Fluxes(datum).Ok? && |Fluxes(datum).value| > 0
    ensures ExtremaSpec(datum, maxFlux, minFlux).value ==
      (Max([maxFlux] + Fluxes(datum).value), Min([minFlux] + Fluxes(datum).value))
  {
    assert Max([maxFlux]) == maxFlux && Min([minFlux]) == minFlux;
    MaxMinAppend([maxFlux], Fluxes(datum).value);
    MaxMinAppend([minFlux], Fluxes(datum).value);
  }

  /** The returned maximum bounds every flux and the incoming maximum and is
      one of them; likewise the minimum. */
  lemma ExtremaBounds(datum: Datum, maxFlux: real, minFlux: real)
    requires ExtremaSpec(datum, maxFlux, minFlux).Ok?
    ensures var (mx, mn) := ExtremaSpec(datum, maxFlux, minFlux).value;
      var flux := Fluxes(datum).value;
      (mx >= maxFlux && (forall x :: x in flux ==> x <= mx) && (mx == maxFlux || mx in flux))
      && (mn <= minFlux && (forall x :: x in flux ==> mn <= x) && (mn == minFlux || mn in flux))
  {
    ExtremaAreExtrema(datum, maxFlux, minFlux);
    var flux := Fluxes(datum).value;
    MaxMinBounds([maxFlux] + flux);
    MaxMinBounds([minFlux] + flux);
    assert forall x :: x in flux ==> x in [maxFlux] + flux && x in [minFlux] + flux;
  }

  /** Starting from 0 and 0, the range always straddles zero. */
  lemma ExtremaStraddleZero(datum: Datum)
    requires ExtremaSpec(datum, 0.0, 0.0).Ok?
    ensures ExtremaSpec(datum, 0.0, 0.0).value.0 >= 0.0 >= ExtremaSpec(datum, 0.0, 0.0).value.1
  {
    ExtremaBounds(datum, 0.0, 0.0);
  }

  /** A truthy `photon_flux` column takes precedence over `flux`. */
  lemma PhotonFluxFirst(datum: Datum, photon: seq<real>)
    requires Get(datum, "photon_flux") == Some(Column(photon)) && |photon| > 0
    ensures Fluxes(datum) == Ok(photon)
  {
  }

  /** The fluxes of every spectrum, concatenated, or the first exception
      (an empty flux list included). */
  function AllFluxes(spectra: seq<Datum>): Result<seq<real>, FluxError>
    decreases |spectra|
  {
    if spectra == [] then Ok([])
    else
      var flux :- Fluxes(spectra[0]);
      if |flux| == 0 then Err(EmptyFlux)
      else
        var rest :- AllFluxes(spectra[1..]);
        Ok(flux + rest)
  }

  /** Widening by one list and then by the next is widening by both. */
  lemma WidenTwice(a: real, b: real, flux: seq<real>, rest: seq<real>)
    requires |flux| > 0
    ensures Max([Max([a] + flux)] + rest) == Max([a] + (flux + rest))
    ensures Min([Min([b] + flux)] + rest) == Min([b] + (flux + rest))
  {
    assert [a] + flux + rest == [a] + (flux + rest);
    assert [b] + flux + rest == [b] + (flux + rest);
    if rest == [] {
      assert flux + rest == flux;
      assert [Max([a] + flux)] + rest == [Max([a] + flux)];
      assert [Min([b] + flux)] + rest == [Min([b] + flux)];
    } else {
      assert Max([Max([a] + flux)]) == Max([a] + flux);
      assert Min([Min([b] + flux)]) == Min([b] + flux);
      MaxMinAppend([Max([a] + flux)], rest);
      MaxMinAppend([Min([b] + flux)], rest);
      MaxMinAppend([a] + flux, rest);
      MaxMinAppend([b] + flux, rest);
    }
  }

  /** Threading the range through the spectra gives the extrema of the
      starting values and every flux of every spectrum; it fails exactly when
      some spectrum's fluxes fail. */
  lemma {:induction false} FoldIsGlobal(spectra: seq<Datum>, maxFlux: real, minFlux: real)
    ensures FoldSpec(spectra, maxFlux, minFlux).Ok? <==> AllFluxes(spectra).Ok?
    ensures FoldSpec(spectra, maxFlux, minFlux).Ok? ==>
      FoldSpec(spectra, maxFlux, minFlux).value ==
        (Max([maxFlux] + AllFluxes(spectra).value), Min([minFlux] + AllFluxes(spectra).value))
    decreases |spectra|
  {
    if spectra == [] {
      assert [maxFlux] + [] == [maxFlux] && [minFlux] + [] == [minFlux];
    } else {
      var ext := ExtremaSpec(spectra[0], maxFlux, minFlux);
      if ext.Ok? {
        ExtremaAreExtrema(spectra[0], maxFlux, minFlux);
        var (mx, mn) := ext.value;
        FoldIsGlobal(spectra[1..], mx, mn);
        if AllFluxes(spectra[1..]).Ok? {
          var flux, rest := Fluxes(spectra[0]).value, AllFluxes(spectra[1..]).value;
          assert AllFluxes(spectra).value == flux + rest;
          WidenTwice(maxFlux, minFlux, flux, rest);
        }
      }
    }
  }

  /** The combined tag's range covers zero and every flux of every spectrum;
      with no spectra there is no range. */
  lemma DashSpectraRange(targetId: int, redshift: real, spectra: seq<Datum>)
    ensures spectra == [] ==> DashSpectraSpec(targetId, redshift, spectra) == Ok(NoSpectra)
    ensures DashSpectraSpec(targetId, redshift, spectra).Ok? && spectra != [] ==>
      AllFluxes(spectra).Ok?
      && var ctx := DashSpectraSpec(targetId, redshift, spectra).value;
      ctx.Range? && ctx.maxFlux >= 0.0 >= ctx.minFlux
      && forall x :: x in AllFluxes(spectra).value ==> ctx.minFlux <= x <= ctx.maxFlux
  {
    FoldIsGlobal(spectra, 0.0, 0.0);
    if spectra != [] && AllFluxes(spectra).Ok? {
      var all := AllFluxes(spectra).value;
      MaxMinBounds([0.0] + all);
      assert 0.0 in [0.0] + all;
      assert forall x :: x in all ==> x in [0.0] + all;
    }
  }
}
