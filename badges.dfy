/** The visual variants of the badge component the restaurant views pass as `variant`. */
module Badges {
  datatype BadgeVariant = Default | Secondary | Destructive | Outline
}
