/** Hit points as both Enemy and Ship keep them: damage never drives them below zero. */
module Health {

  /** takeDamage: health becomes max(0, health - damage). */
  function Damage(health: int, damage: int): (r: int)
    ensures r >= 0
    ensures r >= health - damage
    ensures r == 0 || r == health - damage
  {
    if health - damage > 0 then health - damage else 0
  }

  /** Damage in two instalments adds up, once health is non-negative. */
  lemma DamageAccumulates(health: int, a: nat, b: nat)
    requires health >= 0
    ensures Damage(Damage(health, a), b) == Damage(health, a + b)
  {
  }
}
