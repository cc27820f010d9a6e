/** The selection state of the appointment-creation screen: which provider, day
    and hour are chosen, whether the date picker is open, and the availability
    records last received. Each handler of the screen is a method. The effect
    that runs when the day or the provider changes (it asks for that day's
    availability and clears the chosen hour) is carried out inside the two
    handlers that change them. */
module Appointment {
  import opened Slots

  datatype Option<T> = None | Some(value: T)

  /** A JavaScript Date reduced to its local calendar fields. `month` is
      0-based, as Date.getMonth returns it. */
  datatype DateTime = DateTime(year: int, month: int, day: int,
                               hour: int, minute: int, second: int, millisecond: int)

  /** The parameters of GET /providers/{id}/day-availability. */
  datatype AvailabilityQuery = AvailabilityQuery(providerId: string, year: int, month: int, day: int)

  /** The body of POST /appointments. */
  datatype AppointmentRequest = AppointmentRequest(providerId: string, date: DateTime)

  /** The request the availability effect sends for a provider and a day; the
      API takes a 1-based month. */
  function QueryFor(providerId: string, date: DateTime): AvailabilityQuery
  {
    AvailabilityQuery(providerId, date.year, date.month + 1, date.day)
  }

  /** `new Date(selected)` followed by `setHours(hour)` and `setMinutes(0)`:
      the calendar day, the seconds and the milliseconds come from `selected`. */
  function AtHour(selected: DateTime, hour: int): DateTime
  {
    selected.(hour := hour, minute := 0)
  }

  class CreateAppointmentScreen {
    var selectedProvider: string
    var showDatePicker: bool
    var selectedDate: DateTime
    var selectedHour: int
    var availability: seq<AvailabilityItem>
    /** Every day-availability request sent so far, oldest first. */
    var queries: seq<AvailabilityQuery>

    /** The chosen hour is an hour of the day, and the latest availability
        request is for the provider and day now selected. */
    ghost predicate Valid()
      reads this
    {
      && 0 <= selectedHour < 24
      && |queries| > 0
      && queries[|queries| - 1] == QueryFor(selectedProvider, selectedDate)
    }

    /** Mounting the screen: the provider comes from the route, the day is
        today, no hour is chosen, and the effect sends the first request. */
    constructor (routeProviderId: string, now: DateTime)
      ensures Valid()
      ensures selectedProvider == routeProviderId && selectedDate == now
      ensures !showDatePicker && selectedHour == 0 && availability == []
      ensures queries == [QueryFor(routeProviderId, now)]
    {
      selectedProvider := routeProviderId;
      showDatePicker := false;
      selectedDate := now;
      selectedHour := 0;
      availability := [];
      queries := [QueryFor(routeProviderId, now)];
    }

    /** `handleSelectProvider`, with the effect keyed on the day and the
        provider: a new provider asks for that day's availability and clears
        the chosen hour. React compares the new id with the old one, so
        choosing the provider already chosen triggers no effect. */
    method SelectProvider(providerId: string)
      requires Valid()
      modifies this
      ensures Valid()
      ensures selectedProvider == providerId
      ensures selectedHour == if providerId == old(selectedProvider) then old(selectedHour) else 0
      ensures queries == if providerId == old(selectedProvider) then old(queries)
                         else old(queries) + [QueryFor(providerId, old(selectedDate))]
      ensures selectedDate == old(selectedDate)
      ensures showDatePicker == old(showDatePicker) && availability == old(availability)
    {
      if providerId != selectedProvider {
        selectedProvider := providerId;
        queries := queries + [QueryFor(selectedProvider, selectedDate)];
        selectedHour := 0;
      }
    }

    /** `handleToggleDatePicker`. */
    method ToggleDatePicker()
      requires Valid()
      modifies this
      ensures Valid()
      ensures showDatePicker == !old(showDatePicker)
      ensures selectedProvider == old(selectedProvider) && selectedDate == old(selectedDate)
      ensures selectedHour == old(selectedHour)
      ensures availability == old(availability) && queries == old(queries)
    {
      showDatePicker := !showDatePicker;
    }

    /** `handeDateChange`, with the effect keyed on the day and the provider.
        On Android the picker closes on every event. A supplied date is a new
        Date object, so the effect always runs for it, even when it names the
        day already selected: it asks for that day's availability and clears
        the chosen hour. */
    method DateChange(date: Option<DateTime>, isAndroid: bool)
      requires Valid()
      modifies this
      ensures Valid()
      ensures showDatePicker == if isAndroid then false else old(showDatePicker)
      ensures selectedDate == if date.Some? then date.value else old(selectedDate)
      ensures selectedHour == if date.Some? then 0 else old(selectedHour)
      ensures queries == if date.Some? then old(queries) + [QueryFor(old(selectedProvider), date.value)]
                         else old(queries)
      ensures selectedProvider == old(selectedProvider) && availability == old(availability)
    {
      if isAndroid {
        showDatePicker := false;
      }
      if date.Some? {
        selectedDate := date.value;
        queries := queries + [QueryFor(selectedProvider, selectedDate)];
        selectedHour := 0;
      }
    }

    /** `handleSelectHour`: only the chosen hour changes. */
    method SelectHour(hour: int)
      requires Valid()
      requires 0 <= hour < 24
      modifies this
      ensures Valid()
      ensures selectedHour == hour
      ensures selectedProvider == old(selectedProvider) && selectedDate == old(selectedDate)
      ensures showDatePicker == old(showDatePicker)
      ensures availability == old(availability) && queries == old(queries)
    {
      selectedHour := hour;
    }

    /** The response of a day-availability request arrives. Responses are not
        matched to requests, as in the screen. */
    method ReceiveAvailability(items: seq<AvailabilityItem>)
      requires Valid()
      modifies this
      ensures Valid()
      ensures availability == items
      ensures selectedProvider == old(selectedProvider) && selectedDate == old(selectedDate)
      ensures selectedHour == old(selectedHour) && showDatePicker == old(showDatePicker)
      ensures queries == old(queries)
    {
      availability := items;
    }

    /** The morning section of the schedule. */
    function Morning(): (r: seq<HourSlot>)
      reads this
      ensures Unlabel(r) == MorningItems(availability)
    {
      UnlabelAnnotate(MorningItems(availability));
      MorningAvailability(availability)
    }

    /** The afternoon section of the schedule. */
    function Afternoon(): (r: seq<HourSlot>)
      reads this
      ensures Unlabel(r) == AfternoonItems(availability)
    {
      UnlabelAnnotate(AfternoonItems(availability));
      AfternoonAvailability(availability)
    }

    /** `handleCreateAppointment`: the request for the chosen provider on the
        chosen day at the chosen hour, on the hour. */
    method CreateAppointment() returns (request: AppointmentRequest)
      requires Valid()
      ensures request.providerId == selectedProvider
      ensures request.date.year == selectedDate.year && request.date.month == selectedDate.month
      ensures request.date.day == selectedDate.day
      ensures request.date.hour == selectedHour && request.date.minute == 0
      ensures request.date.second == selectedDate.second
      ensures request.date.millisecond == selectedDate.millisecond
      ensures QueryFor(selectedProvider, request.date) == queries[|queries| - 1]
    {
      var date := AtHour(selectedDate, selectedHour);
      request := AppointmentRequest(selectedProvider, date);
    }
  }
}
