/** The admin panel: the sign-up and appointment lists, the status buttons, the delete
    buttons, the two summary counts and the status badge colour. */
module Admin {
  import opened Wrappers

  /** A listed record: its id, the fields the panel only displays, and its status. */
  datatype Entry<D> = Entry(id: int, details: D, status: string)

  datatype UserDetails = UserDetails(fullName: string, email: string, phone: string,
                                     address: string, dateOfBirth: string, occupation: string,
                                     experience: string, goals: string, preferredTime: string,
                                     courseType: string, submittedAt: string)

  datatype AppointmentDetails = AppointmentDetails(fullName: string, email: string, phone: string,
                                                   appointmentType: string, preferredDate: string,
                                                   preferredTime: string, message: string,
                                                   bookedAt: string)

  type User = Entry<UserDetails>
  type Appointment = Entry<AppointmentDetails>

  // ---------------------------------------------------------------------------
  // List operations

  /** `rows.map(r => r.id === id ? { ...r, status } : r)`. */
  function WithStatus<D>(rows: seq<Entry<D>>, id: int, status: string): (r: seq<Entry<D>>)
    ensures |r| == |rows|
    ensures forall i :: 0 <= i < |rows| ==> r[i].id == rows[i].id && r[i].details == rows[i].details
    ensures forall i :: 0 <= i < |rows| ==> r[i].status == if rows[i].id == id then status else rows[i].status
  {
    if rows == [] then []
    else [if rows[0].id == id then rows[0].(status := status) else rows[0]] + WithStatus(rows[1..], id, status)
  }

  /** `rows.filter(r => r.id !== id)`. */
  function Without<D(==)>(rows: seq<Entry<D>>, id: int): (r: seq<Entry<D>>)
    ensures |r| <= |rows|
    ensures forall i :: 0 <= i < |r| ==> r[i] in rows && r[i].id != id
    ensures forall i :: 0 <= i < |rows| && rows[i].id != id ==> rows[i] in r
  {
    if rows == [] then []
    else (if rows[0].id == id then [] else [rows[0]]) + Without(rows[1..], id)
  }

  /** `rows.filter(r => r.status === status).length`. */
  function CountStatus<D>(rows: seq<Entry<D>>, status: string): nat {
    if rows == [] then 0 else (if rows[0].status == status then 1 else 0) + CountStatus(rows[1..], status)
  }

  /** The records with id `id`. */
  function CountId<D>(rows: seq<Entry<D>>, id: int): nat {
    if rows == [] then 0 else (if rows[0].id == id then 1 else 0) + CountId(rows[1..], id)
  }

  /** The records with id `id` and status `status`. */
  function CountIdStatus<D>(rows: seq<Entry<D>>, id: int, status: string): nat {
    if rows == [] then 0
    else (if rows[0].id == id && rows[0].status == status then 1 else 0) + CountIdStatus(rows[1..], id, status)
  }

  // ---------------------------------------------------------------------------
  // Properties

  /** Setting a status twice is setting it once. */
  lemma {:induction false} WithStatusIdempotent<D>(rows: seq<Entry<D>>, id: int, status: string)
    ensures WithStatus(WithStatus(rows, id, status), id, status) == WithStatus(rows, id, status)
  {
    if rows != [] {
      WithStatusIdempotent(rows[1..], id, status);
    }
  }

  /** How a status change moves the counts: the records with that id leave their old
      status and all join the new one. */
  lemma {:induction false} CountAfterStatusChange<D>(rows: seq<Entry<D>>, id: int, status: string, s: string)
    ensures CountStatus(WithStatus(rows, id, status), s)
            == CountStatus(rows, s) - CountIdStatus(rows, id, s) + (if s == status then CountId(rows, id) else 0)
    ensures CountIdStatus(rows, id, s) <= CountStatus(rows, s)
  {
    if rows != [] {
      CountAfterStatusChange(rows[1..], id, status, s);
      assert WithStatus(rows, id, status)[1..] == WithStatus(rows[1..], id, status);
    }
  }

  /** Deleting works list piece by list piece, so the records kept stay in their order. */
  lemma {:induction false} WithoutConcat<D>(a: seq<Entry<D>>, b: seq<Entry<D>>, id: int)
    ensures Without(a + b, id) == Without(a, id) + Without(b, id)
  {
    if a == [] {
      assert a + b == b;
    } else {
      assert (a + b)[1..] == a[1..] + b;
      WithoutConcat(a[1..], b, id);
    }
  }

  /** Deleting removes as many records as carry the id, and an id nobody has changes
      nothing. */
  lemma {:induction false} WithoutCount<D>(rows: seq<Entry<D>>, id: int)
    ensures |Without(rows, id)| == |rows| - CountId(rows, id)
    ensures CountId(rows, id) == 0 ==> Without(rows, id) == rows
  {
    if rows != [] {
      WithoutCount(rows[1..], id);
    }
  }

  /** The "Pending Actions" figure. */
  function PendingCount(users: seq<User>, appointments: seq<Appointment>): nat {
    CountStatus(users, "pending") + CountStatus(appointments, "pending")
  }

  /** The "Approved/Confirmed" figure. */
  function ApprovedCount(users: seq<User>, appointments: seq<Appointment>): nat {
    CountStatus(users, "approved") + CountStatus(appointments, "confirmed")
  }

  /** Approving the one pending user with a given id moves one from the pending figure to the
      approved one. */
  lemma ApproveMovesOne(users: seq<User>, appointments: seq<Appointment>, id: int)
    requires CountId(users, id) == 1 && CountIdStatus(users, id, "pending") == 1
    ensures PendingCount(WithStatus(users, id, "approved"), appointments) == PendingCount(users, appointments) - 1
    ensures ApprovedCount(WithStatus(users, id, "approved"), appointments) == ApprovedCount(users, appointments) + 1
  {
    CountAfterStatusChange(users, id, "approved", "pending");
    CountAfterStatusChange(users, id, "approved", "approved");
    CountIdStatusBounded(users, id, "approved", "pending");
  }

  /** One record has one status: with a single record for the id, it is counted under at
      most one status. */
  lemma {:induction false} CountIdStatusBounded<D>(rows: seq<Entry<D>>, id: int, s1: string, s2: string)
    requires s1 != s2
    ensures CountIdStatus(rows, id, s1) + CountIdStatus(rows, id, s2) <= CountId(rows, id)
  {
    if rows != [] {
      CountIdStatusBounded(rows[1..], id, s1, s2);
    }
  }

  // ---------------------------------------------------------------------------
  // Badge colour

  const Yellow := "text-yellow-600 bg-yellow-100"
  const Green := "text-green-600 bg-green-100"
  const Red := "text-red-600 bg-red-100"
  const Gray := "text-gray-600 bg-gray-100"

  /** getStatusColor. */
  function StatusColor(status: string): string {
    if status == "pending" then Yellow
    else if status == "approved" || status == "confirmed" then Green
    else if status == "rejected" || status == "cancelled" then Red
    else Gray
  }

  /** Each status the buttons set, and the initial one, has its own colour; the two kinds
      of approval share green, the two kinds of refusal share red, and every other status
      is gray. */
  lemma StatusColors(status: string)
    ensures StatusColor("pending") == Yellow
    ensures StatusColor("approved") == StatusColor("confirmed") == Green
    ensures StatusColor("rejected") == StatusColor("cancelled") == Red
    ensures status !in ["pending", "approved", "confirmed", "rejected", "cancelled"] ==> StatusColor(status) == Gray
    ensures Yellow != Green && Green != Red && Red != Yellow && Gray !in [Yellow, Green, Red]
  {
  }

  // ---------------------------------------------------------------------------
  // The component

  /** The page's two lists, and the two storage entries (`signupUsers`, `appointments`)
      that every update writes back. */
  class AdminPanel {
    var users: seq<User>
    var appointments: seq<Appointment>
    var savedUsers: seq<User>
    var savedAppointments: seq<Appointment>

    /** The lists as loaded from storage when the page mounts. */
    constructor (storedUsers: Option<seq<User>>, storedAppointments: Option<seq<Appointment>>)
      ensures users == OrEmpty(storedUsers) && appointments == OrEmpty(storedAppointments)
      ensures savedUsers == users && savedAppointments == appointments
    {
      users := OrEmpty(storedUsers);
      appointments := OrEmpty(storedAppointments);
      savedUsers := users;
      savedAppointments := appointments;
    }

    method UpdateUserStatus(id: int, status: string)
      requires status == "approved" || status == "rejected"
      modifies this
      ensures users == WithStatus(old(users), id, status) && appointments == old(appointments)
      ensures savedUsers == users && savedAppointments == old(savedAppointments)
    {
      users := WithStatus(users, id, status);
      savedUsers := users;
    }

    method UpdateAppointmentStatus(id: int, status: string)
      requires status == "confirmed" || status == "cancelled"
      modifies this
      ensures appointments == WithStatus(old(appointments), id, status) && users == old(users)
      ensures savedAppointments == appointments && savedUsers == old(savedUsers)
    {
      appointments := WithStatus(appointments, id, status);
      savedAppointments := appointments;
    }

    method DeleteUser(id: int)
      modifies this
      ensures users == Without(old(users), id) && appointments == old(appointments)
      ensures savedUsers == users && savedAppointments == old(savedAppointments)
    {
      users := Without(users, id);
      savedUsers := users;
    }

    method DeleteAppointment(id: int)
      modifies this
      ensures appointments == Without(old(appointments), id) && users == old(users)
      ensures savedAppointments == appointments && savedUsers == old(savedUsers)
    {
      appointments := Without(appointments, id);
      savedAppointments := appointments;
    }
  }
}
