/** The static configuration object of the client (src/config.ts), as constants. */
module Config {

  const Domain := "back.else.app"
  const Origin := "https://front.else.app"

  /** Session lifetime, in seconds. */
  const MaxLifetime := 80_000

  /** Delay ranges, in seconds. */
  const RequestsDelayMin := 1
  const RequestsDelayMax := 2
  const RunDelayOnStart := 0
  const RunDelayMin := 1
  const RunDelayMax := 3
  const ClaimDelayMin := 1200
  const ClaimDelayMax := 4800

  /** The base action probability `random: 0.1`, as the fraction RandomNum / RandomDen. */
  const RandomNum := 1
  const RandomDen := 10
}
