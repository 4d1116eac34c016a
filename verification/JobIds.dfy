// The idempotent id of a queued job.
// Source: apps/api/src/jobs/job-id.ts.

module JobIds {
  import opened LogOrder
  import Text

  const SEPARATOR: char := '/'

  datatype JobId = Id(text: string) | ReservedCharacter

  predicate Plain(part: string) {
    part != "" && SEPARATOR !in part && ':' !in part
  }

  function OrgPart(org: Option<string>): string {
    if org.Some? then org.value else "platform"
  }

  /** Every part but the organization's is checked. */
  function JobIdOf(queue: string, org: Option<string>, entity: string, discriminator: string): JobId {
    if Plain(queue) && Plain(entity) && Plain(discriminator) then
      Id(Text.Join([queue, OrgPart(org), entity, discriminator], SEPARATOR))
    else ReservedCharacter
  }

  /** The queue, the entity and the discriminator are checked, the organization is not; and what the id then is. */
  lemma IdIff(queue: string, org: Option<string>, entity: string, discriminator: string)
    ensures JobIdOf(queue, org, entity, discriminator).Id? <==>
            forall part :: part in {queue, entity, discriminator} ==> part != "" && '/' !in part && ':' !in part
    ensures JobIdOf(queue, org, entity, discriminator).Id? ==>
            JobIdOf(queue, org, entity, discriminator).text ==
            queue + "/" + ((if org.None? then "platform" else org.value) + "/" + (entity + "/" + discriminator))
  {
    hide Text.Join;
    Joins(queue, OrgPart(org), entity, discriminator);
  }

  /** The parts, read back: the first piece, the last two, and whatever is between. */
  lemma PartsComeBack(queue: string, org: string, entity: string, discriminator: string)
    requires Plain(queue) && Plain(entity) && Plain(discriminator)
    ensures var pieces := Text.Split(Text.Join([queue, org, entity, discriminator], SEPARATOR), SEPARATOR);
            && |pieces| >= 3 && pieces[0] == queue
            && Text.Join(pieces[1..|pieces| - 2], SEPARATOR) == org
            && pieces[|pieces| - 2] == entity && pieces[|pieces| - 1] == discriminator
  {
    hide Text.Split, Text.Join;
    var tail := entity + [SEPARATOR] + discriminator;
    var whole := Text.Join([queue, org, entity, discriminator], SEPARATOR);
    Joins(queue, org, entity, discriminator);
    Text.SplitAppend(queue, SEPARATOR, org + [SEPARATOR] + tail);
    Text.SplitAppend(org, SEPARATOR, tail);
    Text.SplitAppend(entity, SEPARATOR, discriminator);
    OnePiece(queue);
    OnePiece(entity);
    OnePiece(discriminator);
    Text.JoinSplit(org, SEPARATOR);
    var pieces := Text.Split(whole, SEPARATOR);
    assert pieces == [queue] + (Text.Split(org, SEPARATOR) + ([entity] + [discriminator]));
    Middle(queue, Text.Split(org, SEPARATOR), entity, discriminator);
  }

  lemma Middle(first: string, between: seq<string>, second: string, last: string)
    ensures var pieces := [first] + (between + ([second] + [last]));
            && |pieces| == |between| + 3 && pieces[1..|pieces| - 2] == between
            && pieces[0] == first && pieces[|pieces| - 2] == second && pieces[|pieces| - 1] == last
  {
  }

  lemma Joins(queue: string, org: string, entity: string, discriminator: string)
    ensures Text.Join([queue, org, entity, discriminator], SEPARATOR) ==
            queue + [SEPARATOR] + (org + [SEPARATOR] + (entity + [SEPARATOR] + discriminator))
  {
    assert [queue, org, entity, discriminator][1..] == [org, entity, discriminator];
    assert [org, entity, discriminator][1..] == [entity, discriminator];
    assert [entity, discriminator][1..] == [discriminator];
    var t := entity + [SEPARATOR] + discriminator;
    assert Text.Join([discriminator], SEPARATOR) == discriminator;
    assert Text.Join([entity, discriminator], SEPARATOR) == t;
    assert Text.Join([org, entity, discriminator], SEPARATOR) == org + [SEPARATOR] + t;
  }

  lemma OnePiece(part: string)
    requires Plain(part)
    ensures Text.Split(part, SEPARATOR) == [part]
  {
    Text.FirstAt(part, SEPARATOR, "");
  }

  /**
   * Two jobs share an id exactly when their queue, entity and discriminator are
   * the same and their tenants are, "platform" standing for none: slashes in an
   * organization's id never make two jobs one.
   */
  lemma SameIdIff(queue: string, org: Option<string>, entity: string, discriminator: string,
                  queue': string, org': Option<string>, entity': string, discriminator': string)
    requires JobIdOf(queue, org, entity, discriminator).Id? && JobIdOf(queue', org', entity', discriminator').Id?
    ensures JobIdOf(queue, org, entity, discriminator) == JobIdOf(queue', org', entity', discriminator') <==>
            && queue == queue' && entity == entity' && discriminator == discriminator'
            && (org == org' || (OrgPart(org) == "platform" && OrgPart(org') == "platform"))
  {
    hide Text.Split, Text.Join;
    PartsComeBack(queue, OrgPart(org), entity, discriminator);
    PartsComeBack(queue', OrgPart(org'), entity', discriminator');
  }

  /** A tenant called "platform" would share its jobs with the platform's own. */
  lemma PlatformIsNotATenant(queue: string, entity: string, discriminator: string)
    ensures JobIdOf(queue, None, entity, discriminator) == JobIdOf(queue, Some("platform"), entity, discriminator)
  {
  }
}
