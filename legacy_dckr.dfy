/**
 * The older copy of the Docker helpers, dckr/dckr.go. Its configuration
 * string, version gate, NewClientFirstOf and build-log scan are the same
 * as in backend-docker/dckr/dckr.go and are modelled once, in Dckr and
 * DckrImages; this module holds what the older copy does differently.
 */
module LegacyDckr {
  import opened Wrappers
  import opened Dckr
  import DckrImages

  /** The older dckr.Image: identity and labels only. */
  datatype Image = Image(id: string, labels: map<string, string>)

  /**
   * The engine's answer to an inspect call: the image it points to (None
   * for a nil pointer) and the error.
   */
  datatype InspectReply = InspectReply(image: Option<DckrImages.EngineImage>, err: Option<string>)

  /** What the older InspectImage returns; reading the ID of a nil image dereferences nil. */
  datatype Inspected = Inspected(image: Image, err: Option<string>) | NilImage

  /**
   * InspectImage: the engine's ID is kept even when there is an error;
   * the labels are taken only when there is no error and the image has a
   * config.
   */
  function InspectImage(reply: InspectReply): (r: Inspected)
    ensures reply.image.None? <==> r.NilImage?
    ensures r.Inspected? ==> r.image.id == reply.image.value.id && r.err == reply.err
    ensures r.Inspected? && r.image.labels != map[] ==> reply.err.None? && reply.image.value.config.Some?
    ensures r.Inspected? && reply.err.None? && reply.image.value.config.Some?
            ==> r.image.labels == reply.image.value.config.value
  {
    match reply.image
    case None => NilImage
    case Some(img) =>
      if reply.err.Some? then Inspected(Image(img.id, map[]), reply.err)
      else if img.config.Some? then Inspected(Image(img.id, img.config.value), None)
      else Inspected(Image(img.id, map[]), None)
  }

  /** What the engine answered during one BuildImage call of the older client. */
  datatype BuildReplies = BuildReplies(
    build: Option<string>,
    output: string,
    ping: Option<string>,
    reconnect: Probe,
    inspect: string -> InspectReply)  // the engine's answer to inspecting each image ID

  datatype BuildOutcome = Built(image: Image, err: Option<string>) | NilClientDereference | NilImageDereference

  datatype BuildEnd = BuildEnd(outcome: BuildOutcome, conn: Option<nat>)

  function BuiltFromInspect(reply: InspectReply): BuildOutcome
  {
    match InspectImage(reply)
    case NilImage => NilImageDereference
    case Inspected(img, err) => Built(img, err)
  }

  /** BuildImage of the older client: the same sequence as DckrImages.BuildSpec with the older image type. */
  function BuildSpec(cfg: Config, conn: Option<nat>, rep: BuildReplies): (e: BuildEnd)
    ensures conn.None? ==> e == BuildEnd(NilClientDereference, None)
    ensures conn.Some? && rep.build.Some? ==> e == BuildEnd(Built(Image("", map[]), rep.build), conn)
    ensures conn.Some? && rep.build.None? && rep.ping.None?
            ==> e == BuildEnd(BuiltFromInspect(rep.inspect(DckrImages.BuiltImageID(DckrImages.ReadLines(rep.output)))), conn)
    ensures conn.Some? && rep.build.None? && rep.ping.Some? && NewClient(cfg, rep.reconnect).err.None?
            && NewClient(cfg, rep.reconnect).conn.Some?
            ==> e == BuildEnd(BuiltFromInspect(rep.inspect(DckrImages.BuiltImageID(DckrImages.ReadLines(rep.output)))),
                              NewClient(cfg, rep.reconnect).conn)
    ensures conn.Some? && rep.build.None? && rep.ping.Some? && NewClient(cfg, rep.reconnect).err.None?
            && NewClient(cfg, rep.reconnect).conn.None?
            ==> e == BuildEnd(NilClientDereference, None)
    ensures conn.Some? && rep.build.None? && rep.ping.Some? && NewClient(cfg, rep.reconnect).err.Some?
            ==> e == BuildEnd(Built(Image(DckrImages.BuiltImageID(DckrImages.ReadLines(rep.output)), map[]), NewClient(cfg, rep.reconnect).err), conn)
    ensures e.conn != conn ==> rep.ping.Some? && NewClient(cfg, rep.reconnect).err.None?
  {
    if conn.None? then BuildEnd(NilClientDereference, None)
    else if rep.build.Some? then BuildEnd(Built(Image("", map[]), rep.build), conn)
    else
      var id := DckrImages.BuiltImageID(DckrImages.ReadLines(rep.output));
      if rep.ping.None? then BuildEnd(BuiltFromInspect(rep.inspect(id)), conn)
      else
        var made := NewClient(cfg, rep.reconnect);
        if made.err.Some? then BuildEnd(Built(Image(id, map[]), made.err), conn)
        else if made.conn.None? then BuildEnd(NilClientDereference, None)
        else BuildEnd(BuiltFromInspect(rep.inspect(id)), made.conn)
  }

  /**
   * As in the newer copy, the image returned without error carries the
   * ID the log announces, when the engine answers an inspection of an ID
   * with the image of that ID. A corollary of BuildSpec's clauses that
   * inspect the scanned ID; what that ID is comes from
   * DckrImages.LastAnnouncementWins.
   */
  lemma BuiltImageIsAnnounced(cfg: Config, conn: nat, rep: BuildReplies)
    requires rep.build.None?
    requires forall x :: rep.inspect(x).image.Some? ==> rep.inspect(x).image.value.id == x
    ensures var e := BuildSpec(cfg, Some(conn), rep);
            e.outcome.Built? && e.outcome.err.None? ==> e.outcome.image.id == DckrImages.BuiltImageID(DckrImages.ReadLines(rep.output))
  {
  }

  /** The older Client.BuildImage, on the same client shape. */
  method BuildImage(c: DckrImages.Client, rep: BuildReplies) returns (r: BuildOutcome)
    modifies c
    ensures c.cfg == old(c.cfg)
    ensures BuildEnd(r, c.conn) == BuildSpec(c.cfg, old(c.conn), rep)
  {
    if c.conn.None? {
      return NilClientDereference;
    }
    if rep.build.Some? {
      return Built(Image("", map[]), rep.build);
    }
    var id := DckrImages.ScanBuildOutput(rep.output);
    if rep.ping.Some? {
      var nc := NewClient(c.cfg, rep.reconnect);
      if nc.err.Some? {
        return Built(Image(id, map[]), nc.err);
      }
      c.conn := nc.conn;
    }
    if c.conn.None? {
      return NilClientDereference;
    }
    match InspectImage(rep.inspect(id))
    case NilImage => return NilImageDereference;
    case Inspected(img, err) => return Built(img, err);
  }

  /** Both copies agree on the scanned ID when reconnecting fails. */
  lemma ReconnectFailureAgrees(cfg: Config, conn: nat, rep: BuildReplies, newer: DckrImages.BuildReplies)
    requires rep.build.None? && rep.ping.Some? && NewClient(cfg, rep.reconnect).err.Some?
    requires newer.build == rep.build && newer.output == rep.output
    requires newer.ping == rep.ping && newer.reconnect == rep.reconnect
    ensures BuildSpec(cfg, Some(conn), rep).outcome.Built?
    ensures DckrImages.BuildSpec(cfg, Some(conn), newer).outcome.Built?
    ensures BuildSpec(cfg, Some(conn), rep).outcome.image.id == DckrImages.BuildSpec(cfg, Some(conn), newer).outcome.image.id
  {
  }

  /**
   * ExecuteImage of the older client: create a container from the image
   * and start it. A container whose start fails is not removed: its ID is
   * returned together with the error.
   */
  method ExecuteImage(engine: DckrImages.Engine, create: Result<string, string>, start: Option<string>)
    returns (cid: string, err: Option<string>)
    requires create.Success? ==> create.value != "" && create.value !in engine.live
    modifies engine
    ensures create.Failure? ==> cid == "" && err == Some(create.error) && engine.live == old(engine.live)
    ensures create.Success? ==> cid == create.value && err == start && engine.live == old(engine.live) + {cid}
  {
    if create.Failure? {
      return "", Some(create.error);
    }
    cid := create.value;
    engine.live := engine.live + {cid};
    err := start;
  }
}
