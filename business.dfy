/** The admin's business settings: contact data and weekly opening hours for each business. */
module Settings {
  import opened Common

  /** The hours of one weekday: when the business opens, when it closes, and whether it opens at all. */
  datatype DayHours = DayHours(open: string, close: string, isOpen: bool)

  /** The settings of one business; `hours` maps each weekday name to its hours. */
  datatype BusinessData = BusinessData(
    name: string, email: string, phone: string, address: string, hours: map<string, DayHours>)

  /** A change to one contact field (the `field` and `value` of `updateBusinessData`). */
  datatype DataUpdate = NameTo(name: string) | EmailTo(email: string) | PhoneTo(phone: string) | AddressTo(address: string)

  /** A change to one field of a day's hours (the `field` and `value` of `updateBusinessHours`). */
  datatype HoursUpdate = OpenTo(open: string) | CloseTo(close: string) | IsOpenTo(isOpen: bool)

  /** `DAYS`: the weekdays, Monday first, in Portuguese. */
  const Days: seq<string> := [
    "Segunda-feira", "Terça-feira", "Quarta-feira", "Quinta-feira", "Sexta-feira", "Sábado", "Domingo"]

  /**
   * `days.reduce((acc, day) => ({ ...acc, [day]: { open, close, isOpen: day !== 'Domingo' } }), {})`:
   * every listed day gets the same hours, open on every day but Sunday.
   */
  function HoursFor(days: seq<string>, open: string, close: string): (h: map<string, DayHours>)
    ensures h.Keys == set d | d in days
    ensures forall d :: d in h ==> h[d] == DayHours(open, close, d != "Domingo")
    decreases |days|
  {
    if days == [] then map[]
    else
      var acc := HoursFor(days[..|days| - 1], open, close);
      var day := days[|days| - 1];
      assert days == days[..|days| - 1] + [day];
      acc[day := DayHours(open, close, day != "Domingo")]
  }

  /** Each of the three businesses as the page first shows it. */
  function InitialData(b: ServiceType): BusinessData
  {
    match b
    case Barbearia =>
      BusinessData("Barbearia Central", "contato@barbearia.com", "(11) 99999-9999",
        "Rua das Barbearias, 123", HoursFor(Days, "09:00", "19:00"))
    case Lavagem =>
      BusinessData("Lavagem Express", "contato@lavagem.com", "(11) 88888-8888",
        "Rua das Lavagens, 456", HoursFor(Days, "08:00", "18:00"))
    case Estetica =>
      BusinessData("Estética Automotiva Premium", "contato@estetica.com", "(11) 77777-7777",
        "Rua da Estética, 789", HoursFor(Days, "09:00", "19:00"))
  }

  /** `initialBusinessData`: the three businesses keyed by their service type. */
  function InitialSettings(): (m: map<ServiceType, BusinessData>)
    ensures m.Keys == {Barbearia, Lavagem, Estetica}
    ensures forall b :: b in m ==> m[b] == InitialData(b)
  {
    map[Barbearia := InitialData(Barbearia), Lavagem := InitialData(Lavagem), Estetica := InitialData(Estetica)]
  }

  /** `{ ...data, [field]: value }`. */
  function WithData(data: BusinessData, u: DataUpdate): BusinessData
  {
    match u
    case NameTo(v) => data.(name := v)
    case EmailTo(v) => data.(email := v)
    case PhoneTo(v) => data.(phone := v)
    case AddressTo(v) => data.(address := v)
  }

  /** `{ ...hours, [field]: value }`. */
  function WithHours(h: DayHours, u: HoursUpdate): DayHours
  {
    match u
    case OpenTo(v) => h.(open := v)
    case CloseTo(v) => h.(close := v)
    case IsOpenTo(v) => h.(isOpen := v)
  }

  /** `updateBusinessData(field, value)` on the record of business `tab`. */
  function UpdateData(all: map<ServiceType, BusinessData>, tab: ServiceType, u: DataUpdate): (r: map<ServiceType, BusinessData>)
    requires tab in all
    ensures r.Keys == all.Keys && r[tab].hours == all[tab].hours
    ensures forall b :: b in all && b != tab ==> r[b] == all[b]
  {
    all[tab := WithData(all[tab], u)]
  }

  /** `updateBusinessHours(day, field, value)` on the record of business `tab`. */
  function UpdateHours(all: map<ServiceType, BusinessData>, tab: ServiceType, day: string, u: HoursUpdate): (r: map<ServiceType, BusinessData>)
    requires tab in all && day in all[tab].hours
    ensures r.Keys == all.Keys && r[tab].hours.Keys == all[tab].hours.Keys
    ensures forall b :: b in all && b != tab ==> r[b] == all[b]
    ensures forall d :: d in all[tab].hours && d != day ==> r[tab].hours[d] == all[tab].hours[d]
  {
    var data := all[tab];
    all[tab := data.(hours := data.hours[day := WithHours(data.hours[day], u)])]
  }

  /** Two updates to the same field: the second one overwrites the first. */
  predicate SameField(u: DataUpdate, v: DataUpdate)
  {
    (u.NameTo? && v.NameTo?) || (u.EmailTo? && v.EmailTo?) || (u.PhoneTo? && v.PhoneTo?) || (u.AddressTo? && v.AddressTo?)
  }

  predicate SameHoursField(u: HoursUpdate, v: HoursUpdate)
  {
    (u.OpenTo? && v.OpenTo?) || (u.CloseTo? && v.CloseTo?) || (u.IsOpenTo? && v.IsOpenTo?)
  }

  // ---------------------------------------------------------------------------
  // Properties

  /**
   * Every business starts with an entry for each of the seven days, closed exactly on
   * Sunday; 09:00-19:00 for the barbershop and the detailing shop, 08:00-18:00 for the car wash.
   */
  lemma InitialHours(b: ServiceType)
    ensures (InitialData(b).hours.Keys == set d | d in Days)
    ensures |InitialData(b).hours| == 7
    ensures forall d :: d in InitialData(b).hours ==>
      && (InitialData(b).hours[d].isOpen <==> d != "Domingo")
      && InitialData(b).hours[d].open == (if b == Lavagem then "08:00" else "09:00")
      && InitialData(b).hours[d].close == (if b == Lavagem then "18:00" else "19:00")
  {
    DayCount();
  }

  /** The seven day names are distinct. */
  lemma DayCount()
    ensures |set d | d in Days| == 7
  {
    DistinctNames(Days);
  }

  /** A list of pairwise different names names as many days as it has entries. */
  lemma {:induction false} DistinctNames(s: seq<string>)
    requires forall i, j :: 0 <= i < j < |s| ==> s[i] != s[j]
    ensures |set d | d in s| == |s|
  {
    if s != [] {
      DistinctNames(s[1..]);
      assert (set d | d in s) == {s[0]} + (set d | d in s[1..]);
      assert s[0] !in s[1..];
    }
  }

  /** A contact update sets that field of the active business only. */
  lemma UpdateDataFrame(all: map<ServiceType, BusinessData>, tab: ServiceType, u: DataUpdate)
    requires tab in all
    ensures var r := UpdateData(all, tab, u);
      && r.Keys == all.Keys
      && (forall b :: b in all && b != tab ==> r[b] == all[b])
      && r[tab].hours == all[tab].hours
      && r[tab].name == (if u.NameTo? then u.name else all[tab].name)
      && r[tab].email == (if u.EmailTo? then u.email else all[tab].email)
      && r[tab].phone == (if u.PhoneTo? then u.phone else all[tab].phone)
      && r[tab].address == (if u.AddressTo? then u.address else all[tab].address)
  {
  }

  /**
   * An hours update sets one field of one day of the active business: the other days,
   * the other fields of that day, the contact fields and the other businesses stay.
   */
  lemma UpdateHoursFrame(all: map<ServiceType, BusinessData>, tab: ServiceType, day: string, u: HoursUpdate)
    requires tab in all && day in all[tab].hours
    ensures var r := UpdateHours(all, tab, day, u);
      var h := r[tab].hours[day];
      var was := all[tab].hours[day];
      && r.Keys == all.Keys
      && (forall b :: b in all && b != tab ==> r[b] == all[b])
      && r[tab].(hours := all[tab].hours) == all[tab]
      && r[tab].hours.Keys == all[tab].hours.Keys
      && (forall d :: d in all[tab].hours && d != day ==> r[tab].hours[d] == all[tab].hours[d])
      && h.open == (if u.OpenTo? then u.open else was.open)
      && h.close == (if u.CloseTo? then u.close else was.close)
      && h.isOpen == (if u.IsOpenTo? then u.isOpen else was.isOpen)
  {
  }

  /** A later contact update of the same field overwrites an earlier one; so repeating one changes nothing. */
  lemma UpdateDataOverwrites(all: map<ServiceType, BusinessData>, tab: ServiceType, u: DataUpdate, v: DataUpdate)
    requires tab in all
    requires SameField(u, v)
    ensures UpdateData(UpdateData(all, tab, u), tab, v) == UpdateData(all, tab, v)
    ensures UpdateData(UpdateData(all, tab, v), tab, v) == UpdateData(all, tab, v)
  {
  }

  /** A later hours update of the same field and day overwrites an earlier one; repeating one changes nothing. */
  lemma UpdateHoursOverwrites(all: map<ServiceType, BusinessData>, tab: ServiceType, day: string, u: HoursUpdate, v: HoursUpdate)
    requires tab in all && day in all[tab].hours
    requires SameHoursField(u, v)
    ensures UpdateHours(UpdateHours(all, tab, day, u), tab, day, v) == UpdateHours(all, tab, day, v)
    ensures UpdateHours(UpdateHours(all, tab, day, v), tab, day, v) == UpdateHours(all, tab, day, v)
  {
    UpdateHoursTwice(all, tab, day, u, v);
    UpdateHoursTwice(all, tab, day, v, v);
  }

  /** One hours update followed by another of the same field and day. */
  lemma UpdateHoursTwice(all: map<ServiceType, BusinessData>, tab: ServiceType, day: string, u: HoursUpdate, v: HoursUpdate)
    requires tab in all && day in all[tab].hours
    requires SameHoursField(u, v)
    ensures UpdateHours(UpdateHours(all, tab, day, u), tab, day, v) == UpdateHours(all, tab, day, v)
  {
    var data := all[tab];
    var h := data.hours;
    var once := all[tab := data.(hours := h[day := WithHours(h[day], u)])];
    assert once == UpdateHours(all, tab, day, u);
    var last := data.(hours := h[day := WithHours(h[day], v)]);
    assert WithHours(WithHours(h[day], u), v) == WithHours(h[day], v);
    assert once[tab].hours[day := WithHours(once[tab].hours[day], v)] == h[day := WithHours(h[day], v)];
    assert once[tab].(hours := h[day := WithHours(h[day], v)]) == last;
    assert once[tab := last] == all[tab := last];
  }

  // ---------------------------------------------------------------------------

  /** The settings page: the selected business tab and the data of all three businesses. */
  class BusinessSettings {
    var activeTab: ServiceType
    var businessData: map<ServiceType, BusinessData>

    /** All three businesses are present, each with hours for every one of the seven days. */
    ghost predicate Valid()
      reads this
    {
      && businessData.Keys == {Barbearia, Lavagem, Estetica}
      && activeTab in businessData
      && forall b :: b in businessData ==> businessData[b].hours.Keys == set d | d in Days
    }

    /** The page as first shown: the barbershop tab, over the initial data. */
    constructor ()
      ensures Valid()
      ensures activeTab == Barbearia
      ensures businessData == InitialSettings()
    {
      activeTab := Barbearia;
      businessData := InitialSettings();
      new;
      forall b | b in businessData
        ensures businessData[b].hours.Keys == set d | d in Days
      {
        InitialHours(b);
      }
    }

    /** A tab button. */
    method SelectTab(tab: ServiceType)
      requires Valid()
      modifies this
      ensures Valid()
      ensures activeTab == tab && businessData == old(businessData)
    {
      activeTab := tab;
    }

    /** `updateBusinessData(field, value)`. */
    method UpdateBusinessData(u: DataUpdate)
      requires Valid()
      modifies this
      ensures Valid()
      ensures businessData == UpdateData(old(businessData), activeTab, u)
      ensures activeTab == old(activeTab)
    {
      businessData := businessData[activeTab := WithData(businessData[activeTab], u)];
    }

    /** `updateBusinessHours(day, field, value)`, for one of the seven days the page lists. */
    method UpdateBusinessHours(day: string, u: HoursUpdate)
      requires Valid() && day in Days
      modifies this
      ensures Valid()
      ensures day in old(businessData)[activeTab].hours
      ensures businessData == UpdateHours(old(businessData), activeTab, day, u)
      ensures activeTab == old(activeTab)
    {
      var data := businessData[activeTab];
      var dayHours := data.hours[day];
      businessData := businessData[activeTab := data.(hours := data.hours[day := WithHours(dayHours, u)])];
    }

    /** The record the save button would send: the active business's. */
    function ActiveData(): (d: BusinessData)
      reads this
      requires Valid()
      ensures d.hours.Keys == set day | day in Days
      ensures d == businessData[activeTab]
    {
      businessData[activeTab]
    }
  }
}
