/** The database behind the route handlers: one map per collection,
    keyed by `_id`, and the two append-only ledgers (attendance records
    and vehicle passages), kept in insertion order. */
module Store {
  import opened Common
  import opened Entities
  import opened Sorting
  import Attendance

  /** The whole content of the store at one moment. */
  datatype Tables = Tables(
    users: map<ObjectId, User>,
    workers: map<ObjectId, Worker>,
    guests: map<ObjectId, Guest>,
    amenities: map<ObjectId, Amenity>,
    bookings: map<ObjectId, Booking>,
    societies: map<ObjectId, Society>,
    complaints: map<ObjectId, Complaint>,
    announcements: map<ObjectId, Announcement>,
    admins: map<ObjectId, AdminDoc>,
    attendance: seq<Attendance.Record>,
    vehicles: seq<VehicleEntry>)

  class Db {
    var users: map<ObjectId, User>
    var workers: map<ObjectId, Worker>
    var guests: map<ObjectId, Guest>
    var amenities: map<ObjectId, Amenity>
    var bookings: map<ObjectId, Booking>
    var societies: map<ObjectId, Society>
    var complaints: map<ObjectId, Complaint>
    var announcements: map<ObjectId, Announcement>
    var admins: map<ObjectId, AdminDoc>
    var attendance: seq<Attendance.Record>
    var vehicles: seq<VehicleEntry>

    /** An empty database. */
    constructor ()
      ensures users == map[] && workers == map[] && guests == map[] && amenities == map[]
      ensures bookings == map[] && societies == map[] && complaints == map[]
      ensures announcements == map[] && admins == map[]
      ensures attendance == [] && vehicles == []
    {
      users, workers, guests, amenities := map[], map[], map[], map[];
      bookings, societies, complaints := map[], map[], map[];
      announcements, admins := map[], map[];
      attendance, vehicles := [], [];
    }

    /** The store's content, so that a handler can say which tables it
        leaves alone in one clause. */
    function Snapshot(): Tables
      reads this
    {
      Tables(users, workers, guests, amenities, bookings, societies, complaints,
             announcements, admins, attendance, vehicles)
    }
  }

  /** The entries of `m` that `keep` selects, as id-document pairs. */
  function Selected<T(==)>(m: map<ObjectId, T>, keep: (ObjectId, T) -> bool): set<(ObjectId, T)> {
    set k | k in m && keep(k, m[k]) :: (k, m[k])
  }

  /** `Model.find(filter).sort(order)`: every selected document exactly
      once, ordered by `le` (ties in whatever order the store yields). */
  method Find<T(!new,==)>(m: map<ObjectId, T>, keep: (ObjectId, T) -> bool, le: ((ObjectId, T), (ObjectId, T)) -> bool)
    returns (rs: seq<(ObjectId, T)>)
    requires TotalPreorder(le)
    ensures multiset(rs) == multiset(Selected(m, keep))
    ensures Sorted(rs, le)
  {
    var found: seq<(ObjectId, T)> := [];
    var todo := m.Keys;
    while todo != {}
      invariant todo <= m.Keys
      invariant multiset(found) == multiset(set k | k in m.Keys - todo && keep(k, m[k]) :: (k, m[k]))
      decreases todo
    {
      var k :| k in todo;
      var before := set j | j in m.Keys - todo && keep(j, m[j]) :: (j, m[j]);
      var after := set j | j in m.Keys - (todo - {k}) && keep(j, m[j]) :: (j, m[j]);
      if keep(k, m[k]) {
        assert (k, m[k]) !in before;
        assert after == before + {(k, m[k])};
        found := found + [(k, m[k])];
      } else {
        assert after == before;
      }
      todo := todo - {k};
    }
    assert m.Keys - todo == m.Keys;
    rs := Sort(found, le);
  }

  /** Every pair `Find` returns is a selected document under its own id. */
  lemma {:induction false} FoundAreSelected<T>(rs: seq<(ObjectId, T)>, m: map<ObjectId, T>, keep: (ObjectId, T) -> bool, i: int)
    requires multiset(rs) == multiset(Selected(m, keep)) && 0 <= i < |rs|
    ensures rs[i].0 in m && m[rs[i].0] == rs[i].1 && keep(rs[i].0, rs[i].1)
  {
    assert rs[i] in multiset(rs);
  }

  /** Every selected document is among the pairs `Find` returns. */
  lemma {:induction false} SelectedAreFound<T>(rs: seq<(ObjectId, T)>, m: map<ObjectId, T>, keep: (ObjectId, T) -> bool, k: ObjectId)
    requires multiset(rs) == multiset(Selected(m, keep)) && k in m && keep(k, m[k])
    ensures (k, m[k]) in rs
  {
    assert (k, m[k]) in multiset(Selected(m, keep));
  }

  /** Newest first, by a creation time. */
  function NewestFirst<T(!new)>(time: T -> int): ((ObjectId, T), (ObjectId, T)) -> bool {
    Descending((p: (ObjectId, T)) => time(p.1))
  }

  lemma NewestFirstIsPreorder<T(!new)>(time: T -> int)
    ensures TotalPreorder(NewestFirst(time))
  {
    DescendingIsPreorder((p: (ObjectId, T)) => time(p.1));
  }
}
