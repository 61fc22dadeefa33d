/**
  The two request handlers of camera-app.js, on top of the `Swivel` object:
  `/snapshot/:waypoint` and `/waypoint`. Only the values they pass to
  `res.send` are modelled; Express itself is not.
*/
module CameraApp {
  import opened Wrappers
  import opened SwivelSpec
  import Swivel

  /** The value handed to `res.send`. */
  datatype Body = Bytes(data: seq<byte>) | Text(text: string) | Undefined

  datatype Reply = Reply(status: int, contentType: string, body: Body)

  predicate EndsWithJpg(p: string) {
    |p| >= 4 && p[|p| - 4..] == ".jpg"
  }

  /** `param.replace(/\.jpg$/, '')`: one trailing ".jpg", matched case-sensitively,
      is removed; anything else is left as it is. */
  function StripJpg(param: string): (name: string)
    ensures EndsWithJpg(param) ==> name + ".jpg" == param
    ensures !EndsWithJpg(param) ==> name == param
    ensures name <= param
  {
    if EndsWithJpg(param) then param[..|param| - 4] else param
  }

  /** Naming a snapshot with ".jpg" reaches the same entry as naming it bare. */
  lemma StripJpgRoundTrip(name: string)
    ensures StripJpg(name + ".jpg") == name
  {
    assert (name + ".jpg")[|name|..] == ".jpg";
    assert (name + ".jpg")[..|name|] == name;
  }

  /** Only one suffix goes, and the match respects case. */
  lemma StripJpgExamples()
    ensures StripJpg("a.jpg.jpg") == "a.jpg"
    ensures StripJpg("a.JPG") == "a.JPG"
    ensures StripJpg("a") == "a"
  {
    StripJpgRoundTrip("a.jpg");
    assert "a.JPG"[1..] == ".JPG";
  }

  /** Lines 15-19: `if (!snapshot) snapshot = ''`. A stored image is sent as it
      is; a missing one is sent as the empty string, still with status 200. An
      image stored from an empty response body is JavaScript `null`, which the
      same fallback turns into ''. */
  function SnapshotReply(found: Option<seq<byte>>): (r: Reply)
    ensures r.status == 200 && r.contentType == "image/png"
    ensures found.None? ==> r.body == Text("")
    ensures found.Some? && |found.value| > 0 ==> r.body == Bytes(found.value)
    ensures found.Some? && |found.value| == 0 ==> r.body == Text("")
  {
    var snapshot := if found.None? || |found.value| == 0 then Text("") else Bytes(found.value);
    Reply(200, "image/png", snapshot)
  }

  /** `GET /snapshot/:waypoint` */
  function SnapshotRoute(sw: Swivel.Swivel, param: string): (r: Reply)
    reads sw
    ensures r.status == 200 && r.contentType == "image/png"
    ensures var key := StripJpg(param);
      && (key !in sw.snapshots ==> r.body == Text(""))
      && (key in sw.snapshots && |sw.snapshots[key]| > 0 ==> r.body == Bytes(sw.snapshots[key]))
      && (key in sw.snapshots && |sw.snapshots[key]| == 0 ==> r.body == Text(""))
  {
    SnapshotReply(sw.GetSnapshot(StripJpg(param)))
  }

  /** `GET /waypoint`: whatever `getWaypoint()` returns, `undefined` included. */
  function WaypointRoute(sw: Swivel.Swivel): (r: Reply)
    reads sw
    ensures r.status == 200 && r.contentType == "text/plain"
    ensures sw.waypoint.None? <==> r.body == Undefined
    ensures sw.waypoint.Some? ==> r.body == Text(sw.waypoint.value)
  {
    var w := sw.GetWaypoint();
    Reply(200, "text/plain", if w.Some? then Text(w.value) else Undefined)
  }
}
