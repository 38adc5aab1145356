/** The global constants of main.py: the network's layer sizes, its learning
    rate, the four training scenarios, the confidence thresholds and the
    size of the image the network reads. */
module Config {

  /** The sizes of the three layers of the network. */
  datatype Shape = Shape(inputs: nat, hidden: nat, outputs: nat)

  /** A training regimen: how many records of the training set to read and
      how many times to go over them. */
  datatype Scenario = Scenario(numLines: nat, numEpochs: nat)

  const InputNodes: nat := 784
  const HiddenNodes: nat := 200
  const OutputNodes: nat := 10
  const LearningRate: real := 0.1

  const Network: Shape := Shape(InputNodes, HiddenNodes, OutputNodes)

  const Scenarios: seq<Scenario> := [
    Scenario(600, 1),
    Scenario(6000, 1),
    Scenario(60000, 1),
    Scenario(60000, 5)
  ]

  const HighThreshold: real := 90.0
  const MediumThreshold: real := 60.0
  const LowThreshold: real := 20.0

  const PixelWidth: nat := 28
  const PixelHeight: nat := 28
}
