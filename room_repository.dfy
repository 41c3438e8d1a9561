/** The lookup the booking service needs from the room table. */
module RoomRepository {
  import opened Common
  import opened Entities

  /** `findByName`: the id of the room with this name, if there is one. The
      name column is unique, so the answer is determined. */
  function FindByName(rooms: map<int, Room>, name: string): (r: Option<int>)
    requires UniqueNames(rooms)
    ensures r.Some? ==> r.value in rooms && rooms[r.value].name == name
    ensures r.None? <==> forall id :: id in rooms ==> rooms[id].name != name
  {
    if exists id :: id in rooms && rooms[id].name == name then
      var id :| id in rooms && rooms[id].name == name;
      Some(id)
    else
      None
  }

  /** Any room carrying the name is the one found. */
  lemma FindByNameFindsTheRoom(rooms: map<int, Room>, id: int)
    requires UniqueNames(rooms)
    requires id in rooms
    ensures FindByName(rooms, rooms[id].name) == Some(id)
  {
  }
}
