/** The layout constants of scripts/constants.ts that the modelled code shares (kept in step with lib/shared.h). */
module Constants {
  const BaseWidth: nat := 420
  /** `baseWidth >> 1` */
  const MinHeight: nat := 210
  /** `baseWidth << 1` */
  const MaxHeight: nat := 840
  const IconSize: nat := 12
  /** `iconSize >> 1` */
  const IconRadius: nat := 6
}
