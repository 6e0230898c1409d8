/** A customer's vehicle. */
module Vehicles {
  import opened Wrappers
  import opened Text
  import opened BaseEntities
  import LicensePlates
  import Vins

  /** JavaScript truthiness of an optional string: present and not `''`. */
  predicate IsTruthy(s: Option<string>) {
    s.Some? && s.value != ""
  }

  /** `vin ? Vin.create(vin) : undefined`: a truthy argument is validated,
      anything else means "no VIN". */
  function OptionalVin(vin: Option<string>): (r: Result<Option<Vins.Vin>, string>)
    ensures !IsTruthy(vin) ==> r == Success(None)
    ensures IsTruthy(vin) && Vins.Create(vin.value).Failure? ==> r == Failure(Vins.Create(vin.value).error)
    ensures IsTruthy(vin) && Vins.Create(vin.value).Success? ==> r == Success(Some(Vins.Create(vin.value).value))
    ensures r.Success? && r.value.Some? ==> r.value.value.Valid()
  {
    if !IsTruthy(vin) then Success(None)
    else
      match Vins.Create(vin.value)
      case Success(v) => Success(Some(v))
      case Failure(e) => Failure(e)
  }

  class Vehicle {
    const base: BaseEntity
    var licensePlate: LicensePlates.LicensePlate
    var make: string
    var model: string
    /** A JavaScript number; no range is checked. */
    var year: int
    var vin: Option<Vins.Vin>
    var color: Option<string>
    /** Set at construction; no method changes it. */
    const clientId: string

    /** The value objects were built by their factories. */
    ghost predicate Valid()
      reads this
    {
      licensePlate.Valid() && (vin.Some? ==> vin.value.Valid())
    }

    constructor (id: string, licensePlate: LicensePlates.LicensePlate, make: string, model: string,
                 year: int, clientId: string, vin: Option<Vins.Vin>, color: Option<string>,
                 createdAt: nat, updatedAt: nat)
      ensures fresh(base) && base.id == id && base.createdAt == createdAt && base.updatedAt == updatedAt
      ensures this.licensePlate == licensePlate && this.make == make && this.model == model
      ensures this.year == year && this.clientId == clientId && this.vin == vin && this.color == color
    {
      base := new BaseEntity(id, createdAt, updatedAt);
      this.licensePlate := licensePlate;
      this.make := make;
      this.model := model;
      this.year := year;
      this.clientId := clientId;
      this.vin := vin;
      this.color := color;
    }

    /** `Vehicle.create`: the plate is validated first, then the VIN only
        when one is given; an empty VIN means none. */
    static method Create(licensePlate: string, make: string, model: string, year: int,
                         clientId: string, vin: Option<string>, color: Option<string>, now: nat)
      returns (r: Result<Vehicle, string>)
      ensures LicensePlates.Create(licensePlate).Failure? ==>
                r == Failure(LicensePlates.Create(licensePlate).error)
      ensures LicensePlates.Create(licensePlate).Success? && OptionalVin(vin).Failure? ==>
                r == Failure(OptionalVin(vin).error)
      ensures r.Success? <==> LicensePlates.Create(licensePlate).Success? && OptionalVin(vin).Success?
      ensures r.Success? ==>
                var v := r.value;
                && fresh(v) && fresh(v.base) && v.Valid()
                && v.base.id == "" && v.base.createdAt == now && v.base.updatedAt == now
                && v.licensePlate == LicensePlates.Create(licensePlate).value
                && v.vin == OptionalVin(vin).value
                && v.make == make && v.model == model && v.year == year
                && v.clientId == clientId && v.color == color
    {
      var p := LicensePlates.Create(licensePlate);
      if p.Failure? {
        return Failure(p.error);
      }
      var w := OptionalVin(vin);
      if w.Failure? {
        return Failure(w.error);
      }
      var v := new Vehicle("", p.value, make, model, year, clientId, w.value, color, now, now);
      return Success(v);
    }

    /** Validates before assigning: on failure nothing changes. */
    method UpdateLicensePlate(licensePlate: string, now: nat) returns (o: Outcome<string>)
      modifies this, base
      ensures LicensePlates.Create(licensePlate).Failure? ==>
                && o == Fail(LicensePlates.Create(licensePlate).error)
                && this.licensePlate == old(this.licensePlate) && base.updatedAt == old(base.updatedAt)
      ensures LicensePlates.Create(licensePlate).Success? ==>
                && o == Pass
                && this.licensePlate == LicensePlates.Create(licensePlate).value && base.updatedAt == now
      ensures make == old(make) && model == old(model) && year == old(year)
      ensures vin == old(vin) && color == old(color)
      ensures old(this.licensePlate.Valid()) ==> this.licensePlate.Valid()
    {
      var p := LicensePlates.Create(licensePlate);
      if p.Failure? {
        return Fail(p.error);
      }
      SetLicensePlate(p.value, now);
      return Pass;
    }

    /** Stores an already validated plate and stamps the update. */
    method SetLicensePlate(p: LicensePlates.LicensePlate, now: nat)
      modifies this, base
      ensures licensePlate == p && base.updatedAt == now
      ensures make == old(make) && model == old(model) && year == old(year)
      ensures vin == old(vin) && color == old(color)
    {
      licensePlate := p;
      base.SetUpdatedAt(now);
    }

    method UpdateMake(make: string, now: nat)
      modifies this, base
      ensures this.make == make && base.updatedAt == now
      ensures licensePlate == old(licensePlate) && model == old(model) && year == old(year)
      ensures vin == old(vin) && color == old(color)
    {
      this.make := make;
      base.SetUpdatedAt(now);
    }

    method UpdateModel(model: string, now: nat)
      modifies this, base
      ensures this.model == model && base.updatedAt == now
      ensures licensePlate == old(licensePlate) && make == old(make) && year == old(year)
      ensures vin == old(vin) && color == old(color)
    {
      this.model := model;
      base.SetUpdatedAt(now);
    }

    /** Any year is taken, without a range check. */
    method UpdateYear(year: int, now: nat)
      modifies this, base
      ensures this.year == year && base.updatedAt == now
      ensures licensePlate == old(licensePlate) && make == old(make) && model == old(model)
      ensures vin == old(vin) && color == old(color)
    {
      this.year := year;
      base.SetUpdatedAt(now);
    }

    /** A given VIN is validated before it is assigned, and on failure
        nothing changes; `None` or `''` clears the VIN. */
    method UpdateVin(vin: Option<string>, now: nat) returns (o: Outcome<string>)
      modifies this, base
      ensures OptionalVin(vin).Failure? ==>
                && o == Fail(OptionalVin(vin).error)
                && this.vin == old(this.vin) && base.updatedAt == old(base.updatedAt)
      ensures OptionalVin(vin).Success? ==>
                o == Pass && this.vin == OptionalVin(vin).value && base.updatedAt == now
      ensures !IsTruthy(vin) ==> o == Pass && this.vin.None?
      ensures licensePlate == old(licensePlate) && make == old(make) && model == old(model)
      ensures year == old(year) && color == old(color)
      ensures old(Valid()) ==> Valid()
    {
      var w := OptionalVin(vin);
      if w.Failure? {
        return Fail(w.error);
      }
      SetVin(w.value, now);
      return Pass;
    }

    /** Stores an already validated VIN (or none) and stamps the update. */
    method SetVin(v: Option<Vins.Vin>, now: nat)
      modifies this, base
      ensures vin == v && base.updatedAt == now
      ensures licensePlate == old(licensePlate) && make == old(make) && model == old(model)
      ensures year == old(year) && color == old(color)
    {
      vin := v;
      base.SetUpdatedAt(now);
    }

    /** `None` (undefined) clears the colour. */
    method UpdateColor(color: Option<string>, now: nat)
      modifies this, base
      ensures this.color == color && base.updatedAt == now
      ensures licensePlate == old(licensePlate) && make == old(make) && model == old(model)
      ensures year == old(year) && vin == old(vin)
    {
      this.color := color;
      base.SetUpdatedAt(now);
    }

    /** A VIN is present exactly when its clean form can be read. */
    function HasVin(): (r: bool)
      reads this
      ensures r <==> vin.Some?
      ensures (vin.Some? ==> vin.value.Valid()) ==> (r <==> GetCleanVin().Some?)
    {
      vin.Some?
    }

    /** A colour is present and not whitespace only. */
    function HasColor(): (r: bool)
      reads this
      ensures r <==> color.Some? && exists i :: 0 <= i < |color.value| && !IsWhitespace(color.value[i])
    {
      HasText(color)
    }

    /** The displayed plate: creating from it gives back the stored plate. */
    function GetFormattedLicensePlate(): (r: string)
      reads this
      requires licensePlate.Valid()
      ensures LicensePlates.Create(r) == Success(licensePlate)
      ensures LicensePlates.Clean(r) == GetCleanLicensePlate()
    {
      LicensePlates.FormattedRoundTrip(licensePlate);
      LicensePlates.CleanOfFormatted(licensePlate);
      licensePlate.Formatted()
    }

    /** Seven capitals and digits. */
    function GetCleanLicensePlate(): (r: string)
      reads this
      requires licensePlate.Valid()
      ensures |r| == 7 && forall i :: 0 <= i < 7 ==> IsUpperAlphanumeric(r[i])
    {
      LicensePlates.ValidPlateShape(licensePlate);
      licensePlate.Clean()
    }

    /** The grouped VIN, or `None` without one; dropping its two hyphens
        gives the clean VIN. */
    function GetFormattedVin(): (r: Option<string>)
      reads this
      requires vin.Some? ==> vin.value.Valid()
      ensures r.Some? <==> vin.Some?
      ensures r.Some? ==> |r.value| == 19 && r.value[3] == '-' && r.value[10] == '-'
      ensures r.Some? ==> r.value[..3] + r.value[4..10] + r.value[11..] == vin.value.value
    {
      if vin.None? then None
      else
        Vins.FormattedShape(vin.value);
        Some(vin.value.Formatted())
    }

    /** The clean VIN, or `None` without one; creating from it gives back
        the stored VIN. */
    function GetCleanVin(): (r: Option<string>)
      reads this
      requires vin.Some? ==> vin.value.Valid()
      ensures r.Some? <==> vin.Some?
      ensures r.Some? ==> Vins.Create(r.value) == Success(vin.value)
    {
      if vin.None? then None
      else
        Vins.ToStringRoundTrip(vin.value);
        Some(vin.value.Clean())
    }
  }
}
