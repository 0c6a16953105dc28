/** The two integer helpers of UnityEngine.Mathf that the game relies on. */
module UnityMath {

  /** `Mathf.Max(int, int)`. */
  function Max(a: int, b: int): (r: int)
    ensures r >= a && r >= b
    ensures r == a || r == b
  {
    if a >= b then a else b
  }

  /** `Mathf.Clamp(int value, int min, int max)`: below `min` gives `min`,
      otherwise above `max` gives `max`, otherwise the value itself. */
  function Clamp(value: int, min: int, max: int): (r: int)
    ensures min <= max ==> min <= r <= max
    ensures min <= value <= max ==> r == value
    ensures value < min ==> r == min
    ensures min <= value && max < value ==> r == max
  {
    if value < min then min else if value > max then max else value
  }
}
