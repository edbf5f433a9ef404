/** What an active window is, said by its From and To fires alone. */
module Windows {
  import opened Wrappers
  import opened Cluster
  import opened Cron

  /** The From fire f opened a window that no To fire has closed up to and including now. */
  ghost predicate OpenedBy(from: Schedule, to: Schedule, f: int, now: int) {
    && f < now
    && IsFire(from, f)
    && forall q :: f < q <= now ==> !IsFire(to, q)
  }

  ghost predicate InWindow(from: Schedule, to: Schedule, now: int) {
    exists f :: OpenedBy(from, to, f, now)
  }

  /** Between two From fires there is a To fire, and between two To fires a From fire. */
  ghost predicate Alternating(from: Schedule, to: Schedule) {
    && (forall f {:trigger IsFire(from, f)} :: IsFire(from, f) ==> to.next(f) < from.next(f))
    && (forall q {:trigger IsFire(to, q)} :: IsFire(to, q) ==> from.next(q) < to.next(q))
  }

  /** The next fire of the two schedules is a From fire. */
  ghost predicate OpensNext(from: Schedule, to: Schedule, t: int) {
    from.next(t) < to.next(t)
  }

  lemma OpenedUntilNextTo(from: Schedule, to: Schedule, f: int, now: int)
    ensures OpenedBy(from, to, f, now) <==> IsFire(from, f) && f < now < to.next(f)
  {
    NextIsFire(to, f);
  }

  /** The greatest fire of s not after t, when there is one. */
  lemma LastFire(s: Schedule, g: int, t: int) returns (f: int)
    requires g <= t && IsFire(s, g)
    ensures g <= f <= t < s.next(f) && IsFire(s, f)
    decreases t - g
  {
    if s.next(g) <= t {
      NextIsFire(s, g);
      f := LastFire(s, s.next(g), t);
    } else {
      f := g;
    }
  }

  /**
   * With alternating fires the next fire tells whether an instant lies in a window: it does exactly when
   * a To fire comes first and the instant is not itself the opening.
   */
  lemma InWindowIffClosesNext(from: Schedule, to: Schedule, g: int, now: int)
    requires Alternating(from, to) && g < now && IsFire(from, g)
    ensures InWindow(from, to, now) <==> !OpensNext(from, to, now) && !IsFire(from, now)
  {
    var f := LastFire(from, g, now - 1);
    OpenedUntilNextTo(from, to, f, now);
    NextMonotone(to, f, now);
    if now < to.next(f) {
      assert OpenedBy(from, to, f, now);
      assert to.next(now) == to.next(f) && from.next(now) == from.next(f);
    } else {
      NextIsFire(to, f);
      forall f'
        ensures !OpenedBy(from, to, f', now)
      {
        if f < f' < now && IsFire(from, f') {
          NextBeforeFire(from, f, f');
        }
      }
      if !IsFire(from, now) {
        var q := LastFire(to, to.next(f), now);
        assert from.next(q) == from.next(now);
      }
    }
  }

  lemma NextsDiffer(from: Schedule, to: Schedule, t: int)
    requires Alternating(from, to)
    ensures from.next(t) != to.next(t)
  {
    NextIsFire(from, t);
    NextIsFire(to, t);
  }
}
