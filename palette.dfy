/**
  The accent colours of the design system that the application logic
  passes around: the tint of a status notification and of the score ring.
  Only their identity matters to the model, not their RGBA values.
 */
module Palette {

  datatype Tint =
    | AccentBlue
    | AccentGreen
    | AccentOrange
    | AccentRed
    | AccentPurple
    | TextSecondary

}
