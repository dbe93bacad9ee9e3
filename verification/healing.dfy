/**
 * The archon's healing decisions: whether a robot needs healing
 * (needsHealing) and how much energon archonHeal hands over. Energon
 * amounts are exact reals.
 */
module Healing {
  import opened Wrappers
  import opened Host

  /** A robot needs healing when it is below half its maximum energon. */
  function NeedsHealing(bot: RobotInfo): (r: bool)
    // the robot lacks more than half its maximum, and only then
    ensures r <==> bot.maxEnergon - bot.energonLevel > bot.maxEnergon / 2.0
    // so a robot that needs healing has a positive deficit to be filled
    ensures r && bot.maxEnergon >= 0.0 ==> bot.maxEnergon - bot.energonLevel > 0.0
    // and a robot at or above its maximum never needs it
    ensures bot.maxEnergon >= 0.0 && bot.energonLevel >= bot.maxEnergon ==> !r
  {
    bot.energonLevel < bot.maxEnergon / 2.0
  }

  /** Extra energon never makes a robot need healing: one that does not
      need it keeps not needing it as its energon grows. */
  lemma MoreEnergonNeedsLess(bot: RobotInfo, gain: real)
    requires gain >= 0.0 && !NeedsHealing(bot)
    ensures !NeedsHealing(bot.(energonLevel := bot.energonLevel + gain))
  {
  }

  /**
   * The energon archonHeal transfers to the hurt robot, or None when it does
   * not heal: only an archon above an eighth of an archon's maximum energon
   * heals, and only a robot whose eventual energon is below its type's
   * maximum. It gives what the robot lacks of its maximum, but never so much
   * that less than one round of upkeep remains.
   */
  function TransferAmount(own: real, hurt: RobotInfo, archonMax: real, upkeep: real, typeMax: real): (r: Option<real>)
    ensures r.Some? <==> own > archonMax / 8.0 && hurt.eventualEnergon < typeMax
    ensures r.Some? ==> r.value <= hurt.maxEnergon - hurt.energonLevel && own - r.value >= upkeep
    ensures r.Some? ==> r.value == hurt.maxEnergon - hurt.energonLevel || r.value == own - upkeep
  {
    if own > archonMax / 8.0 && hurt.eventualEnergon < typeMax then
      var needed := hurt.maxEnergon - hurt.energonLevel;
      Some(if needed <= own - upkeep then needed else own - upkeep)
    else None
  }

  /**
   * Healing a robot that needs it: when the archon can spare more than the
   * robot lacks, the robot is healed to its maximum and needs no more
   * healing; otherwise it gets all the archon can spare, which is a real
   * gain whenever the archon holds more than its upkeep.
   */
  lemma HealingHelps(own: real, hurt: RobotInfo, archonMax: real, upkeep: real, typeMax: real)
    requires hurt.maxEnergon >= 0.0 && NeedsHealing(hurt)
    requires TransferAmount(own, hurt, archonMax, upkeep, typeMax).Some?
    ensures var a := TransferAmount(own, hurt, archonMax, upkeep, typeMax).value;
            var healed := hurt.(energonLevel := hurt.energonLevel + a);
            && (hurt.maxEnergon - hurt.energonLevel <= own - upkeep ==>
                  healed.energonLevel == hurt.maxEnergon && !NeedsHealing(healed))
            && (own > upkeep ==> a > 0.0)
  {
    var a := TransferAmount(own, hurt, archonMax, upkeep, typeMax).value;
    if hurt.maxEnergon - hurt.energonLevel <= own - upkeep {
      assert a == hurt.maxEnergon - hurt.energonLevel;
    }
  }
}
