/** Fixed-point amounts. On-chain token and reputation amounts are integers
    scaled by 10^18 ("wei"); the client shows them as decimals ("ether").
    The original converts through double-precision numbers; this model uses
    exact rational arithmetic instead. */
module Wei {

  /** Number of wei in one ether. */
  const WeiPerEther: nat := 1_000_000_000_000_000_000

  /** Descale an on-chain amount to a decimal (`web3.fromWei(x, "ether")`). */
  function FromWei(w: int): (e: real)
    ensures e * WeiPerEther as real == w as real
    ensures w >= 0 ==> e >= 0.0
  {
    w as real / WeiPerEther as real
  }

  /** Scale a decimal up to wei (`toWei(x, "ether")`), truncating any digits
      below one wei towards minus infinity. */
  function ToWei(e: real): (w: int)
    ensures w as real <= e * WeiPerEther as real < w as real + 1.0
    ensures e >= 0.0 ==> w >= 0
  {
    (e * WeiPerEther as real).Floor
  }

  /** Descaling loses nothing: scaling the decimal back gives the same wei. */
  lemma ToWeiFromWei(w: int)
    ensures ToWei(FromWei(w)) == w
  {

  }

  /** Scaling then descaling never overshoots and is off by less than one wei. */
  lemma FromWeiToWei(e: real)
    ensures FromWei(ToWei(e)) <= e
    ensures e - FromWei(ToWei(e)) < 1.0 / WeiPerEther as real
  {

  }
}
