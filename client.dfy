/** A customer of the workshop. */
module Clients {
  import opened Wrappers
  import opened Text
  import opened BaseEntities
  import Emails
  import CpfCnpjs

  class Client {
    const base: BaseEntity
    var name: string
    var email: Emails.Email
    var phone: Option<string>
    /** The tax identifier has no mutator. */
    const cpfCnpj: CpfCnpjs.CpfCnpj
    var address: Option<string>

    /** The value objects were built by their factories. */
    ghost predicate Valid()
      reads this
    {
      email.Valid() && cpfCnpj.Valid()
    }

    constructor (id: string, name: string, email: Emails.Email, cpfCnpj: CpfCnpjs.CpfCnpj,
                 phone: Option<string>, address: Option<string>, createdAt: nat, updatedAt: nat)
      ensures fresh(base) && base.id == id && base.createdAt == createdAt && base.updatedAt == updatedAt
      ensures this.name == name && this.email == email && this.cpfCnpj == cpfCnpj
      ensures this.phone == phone && this.address == address
    {
      base := new BaseEntity(id, createdAt, updatedAt);
      this.name := name;
      this.email := email;
      this.cpfCnpj := cpfCnpj;
      this.phone := phone;
      this.address := address;
    }

    /** `Client.create`: the e-mail is validated before the tax identifier,
        so its error wins when both are wrong. */
    static method Create(name: string, email: string, cpfCnpj: string,
                         phone: Option<string>, address: Option<string>, now: nat)
      returns (r: Result<Client, string>)
      ensures Emails.Create(email).Failure? ==> r == Failure(Emails.Create(email).error)
      ensures Emails.Create(email).Success? && CpfCnpjs.Create(cpfCnpj).Failure? ==>
                r == Failure(CpfCnpjs.Create(cpfCnpj).error)
      ensures r.Success? <==> Emails.Create(email).Success? && CpfCnpjs.Create(cpfCnpj).Success?
      ensures r.Success? ==>
                var c := r.value;
                && fresh(c) && fresh(c.base) && c.Valid()
                && c.base.id == "" && c.base.createdAt == now && c.base.updatedAt == now
                && c.name == name && c.email == Emails.Create(email).value
                && c.cpfCnpj == CpfCnpjs.Create(cpfCnpj).value
                && c.phone == phone && c.address == address
    {
      var e := Emails.Create(email);
      if e.Failure? {
        return Failure(e.error);
      }
      var t := CpfCnpjs.Create(cpfCnpj);
      if t.Failure? {
        return Failure(t.error);
      }
      var c := new Client("", name, e.value, t.value, phone, address, now, now);
      return Success(c);
    }

    method UpdateName(name: string, now: nat)
      modifies this, base
      ensures this.name == name && base.updatedAt == now
      ensures email == old(email) && phone == old(phone) && address == old(address)
    {
      this.name := name;
      base.SetUpdatedAt(now);
    }

    /** Validates before assigning: on failure nothing changes. */
    method UpdateEmail(email: string, now: nat) returns (o: Outcome<string>)
      modifies this, base
      ensures Emails.Create(email).Failure? ==>
                && o == Fail(Emails.Create(email).error)
                && this.email == old(this.email) && base.updatedAt == old(base.updatedAt)
      ensures Emails.Create(email).Success? ==>
                && o == Pass
                && this.email == Emails.Create(email).value && base.updatedAt == now
      ensures name == old(name) && phone == old(phone) && address == old(address)
      ensures old(this.email.Valid()) ==> this.email.Valid()
    {
      var e := Emails.Create(email);
      if e.Failure? {
        return Fail(e.error);
      }
      SetEmail(e.value, now);
      return Pass;
    }

    /** Stores an already validated email and stamps the update. */
    method SetEmail(e: Emails.Email, now: nat)
      modifies this, base
      ensures email == e && base.updatedAt == now
      ensures name == old(name) && phone == old(phone) && address == old(address)
    {
      email := e;
      base.SetUpdatedAt(now);
    }

    /** `None` (undefined) clears the phone. */
    method UpdatePhone(phone: Option<string>, now: nat)
      modifies this, base
      ensures this.phone == phone && base.updatedAt == now
      ensures name == old(name) && email == old(email) && address == old(address)
    {
      this.phone := phone;
      base.SetUpdatedAt(now);
    }

    /** `None` (undefined) clears the address. */
    method UpdateAddress(address: Option<string>, now: nat)
      modifies this, base
      ensures this.address == address && base.updatedAt == now
      ensures name == old(name) && email == old(email) && phone == old(phone)
    {
      this.address := address;
      base.SetUpdatedAt(now);
    }

    /** A phone is present and not whitespace only; the stored text itself
        is never trimmed. */
    function HasPhone(): (r: bool)
      reads this
      ensures r <==> phone.Some? && exists i :: 0 <= i < |phone.value| && !IsWhitespace(phone.value[i])
    {
      HasText(phone)
    }

    function HasAddress(): (r: bool)
      reads this
      ensures r <==> address.Some? && exists i :: 0 <= i < |address.value| && !IsWhitespace(address.value[i])
    {
      HasText(address)
    }

    /** The formatted identifier: its digits are the raw identifier, and
        creating from it gives back the stored value. */
    function GetFormattedCpfCnpj(): (r: string)
      requires cpfCnpj.Valid()
      ensures CpfCnpjs.DigitsOnly(r) == GetRawCpfCnpj()
      ensures CpfCnpjs.Create(r) == Success(cpfCnpj)
    {
      CpfCnpjs.FormattedDigits(cpfCnpj);
      CpfCnpjs.FormattedRoundTrip(cpfCnpj);
      cpfCnpj.Formatted()
    }

    /** The digits only: 11 for a CPF, 14 for a CNPJ. */
    function GetRawCpfCnpj(): (r: string)
      requires cpfCnpj.Valid()
      ensures AllDigits(r) && (|r| == 11 <==> cpfCnpj.IsCpf()) && (|r| == 11 || |r| == 14)
    {
      cpfCnpj.Clean()
    }

    /** The stored address: lower case, well formed, and accepted again as
        the same e-mail. */
    function GetNormalizedEmail(): (r: string)
      reads this
      requires email.Valid()
      ensures ToLower(r) == r && Emails.MatchesEmailPattern(r)
      ensures Emails.Create(r) == Success(email)
    {
      Emails.ToStringRoundTrip(email);
      email.Normalized()
    }
  }
}
